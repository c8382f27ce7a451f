/**
 * Python `str` operations the core relies on, restricted to what the model
 * needs: the built-in ordering of strings (code point by code point, a proper
 * prefix first), `sorted(set(xs))`, `str.split(sep)`, `str.join` and
 * `str.strip()` over ASCII whitespace.
 */
module PyStrings {

  /** Python's `a < b` on `str`. */
  predicate Less(a: string, b: string)
    decreases |a|
  {
    if |a| == 0 then |b| > 0
    else if |b| == 0 then false
    else if a[0] == b[0] then Less(a[1..], b[1..])
    else a[0] < b[0]
  }

  lemma {:induction false} LessIrreflexive(a: string)
    ensures !Less(a, a)
    decreases |a|
  {
    if |a| > 0 {
      LessIrreflexive(a[1..]);
    }
  }

  lemma {:induction false} LessTransitive(a: string, b: string, c: string)
    requires Less(a, b) && Less(b, c)
    ensures Less(a, c)
    decreases |a|
  {
    if |a| > 0 && a[0] == b[0] && b[0] == c[0] {
      LessTransitive(a[1..], b[1..], c[1..]);
    }
  }

  lemma {:induction false} LessTotal(a: string, b: string)
    ensures a == b || Less(a, b) || Less(b, a)
    decreases |a|
  {
    if |a| > 0 && |b| > 0 && a[0] == b[0] {
      LessTotal(a[1..], b[1..]);
      if a[1..] == b[1..] {
        assert a == [a[0]] + a[1..] && b == [b[0]] + b[1..];
      }
    }
  }

  lemma LessAsymmetric(a: string, b: string)
    requires Less(a, b)
    ensures !Less(b, a)
  {
    if Less(b, a) {
      LessTransitive(a, b, a);
      LessIrreflexive(a);
    }
  }

  /** Ascending with no two equal elements. */
  predicate StrictlySorted(s: seq<string>) {
    forall i, j :: 0 <= i < j < |s| ==> Less(s[i], s[j])
  }

  /** Places `x` into a strictly sorted sequence, unless it is already there. */
  function Insert(x: string, s: seq<string>): (r: seq<string>)
    requires StrictlySorted(s)
    ensures StrictlySorted(r)
    ensures forall e :: e in r <==> e in s || e == x
    decreases |s|
  {
    if s == [] then [x]
    else if x == s[0] then s
    else if Less(x, s[0]) then
      assert forall j :: 0 < j < |s| ==> Less(x, s[j]) by {
        forall j | 0 < j < |s| ensures Less(x, s[j]) { LessTransitive(x, s[0], s[j]); }
      }
      [x] + s
    else
      LessTotal(x, s[0]);
      var t := Insert(x, s[1..]);
      assert forall e :: e in t ==> Less(s[0], e);
      [s[0]] + t
  }

  /** Python's `sorted(set(xs))` for a list of strings. */
  function SortedDistinct(xs: seq<string>): (r: seq<string>)
    ensures StrictlySorted(r)
    ensures forall e :: e in r <==> e in xs
  {
    if xs == [] then []
    else Insert(xs[|xs| - 1], SortedDistinct(xs[..|xs| - 1]))
  }

  /** A strictly sorted sequence is determined by its elements. */
  lemma {:induction false} StrictlySortedUnique(a: seq<string>, b: seq<string>)
    requires StrictlySorted(a) && StrictlySorted(b)
    requires forall e :: e in a <==> e in b
    ensures a == b
    decreases |a|
  {
    if a != [] { assert a[0] in b; }
    if b != [] { assert b[0] in a; }
    if a != [] && b != [] {
      assert a[0] == b[0] by {
        if a[0] != b[0] {
          var m :| 0 <= m < |b| && b[m] == a[0];
          var k :| 0 <= k < |a| && a[k] == b[0];
          assert Less(b[0], a[0]) && Less(a[0], b[0]);
          LessAsymmetric(a[0], b[0]);
        }
      }
      forall e ensures e in a[1..] <==> e in b[1..] {
        if e in a[1..] {
          var k :| 1 <= k < |a| && a[k] == e;
          assert Less(a[0], e);
          if e == b[0] { LessIrreflexive(e); }
          assert e in a;
          assert e in b;
          var m :| 0 <= m < |b| && b[m] == e;
          assert b[1..][m - 1] == e;
        }
        if e in b[1..] {
          var k :| 1 <= k < |b| && b[k] == e;
          assert Less(b[0], e);
          if e == a[0] { LessIrreflexive(e); }
          assert e in b;
          assert e in a;
          var m :| 0 <= m < |a| && a[m] == e;
          assert a[1..][m - 1] == e;
        }
      }
      StrictlySortedUnique(a[1..], b[1..]);
      assert a == [a[0]] + a[1..] && b == [b[0]] + b[1..];
    }
  }

  /** The first position of `c` in `s`. */
  function IndexOf(s: string, c: char): (k: nat)
    requires c in s
    ensures k < |s| && s[k] == c && c !in s[..k]
  {
    if s[0] == c then 0
    else
      assert c in s[1..] by { var i :| 0 <= i < |s| && s[i] == c; assert s[1..][i - 1] == c; }
      var k := 1 + IndexOf(s[1..], c);
      assert s[..k] == [s[0]] + s[1..][..k - 1];
      k
  }

  /** Python's `sep.join(parts)` for a one-character separator. */
  function Join(parts: seq<string>, sep: char): string
  {
    if |parts| <= 1 then (if parts == [] then "" else parts[0])
    else parts[0] + [sep] + Join(parts[1..], sep)
  }

  /** Python's `''.join(parts)`. */
  function Concat(parts: seq<string>): string
  {
    if parts == [] then "" else parts[0] + Concat(parts[1..])
  }

  /** Python's `s.split(sep)` for a one-character separator.  */
  function Split(s: string, sep: char): (r: seq<string>)
    ensures |r| >= 1
    ensures forall i :: 0 <= i < |r| ==> sep !in r[i]
    ensures Join(r, sep) == s
    ensures |r| == 1 <==> sep !in s
    decreases |s|
  {
    if sep !in s then [s]
    else
      var k := IndexOf(s, sep);
      var rest := Split(s[k + 1..], sep);
      assert s == s[..k] + [sep] + s[k + 1..];
      [s[..k]] + rest
  }

  /** The ASCII characters for which Python's `str.isspace()` holds. */
  predicate IsSpace(c: char) {
    var n := c as int;
    n == 32 || 9 <= n <= 13 || 28 <= n <= 31
  }

  function StripLeft(s: string): (r: string)
    ensures |r| <= |s| && r == s[|s| - |r|..]
    ensures r != [] ==> !IsSpace(r[0])
    ensures forall i :: 0 <= i < |s| - |r| ==> IsSpace(s[i])
  {
    if s != [] && IsSpace(s[0]) then StripLeft(s[1..]) else s
  }

  function StripRight(s: string): (r: string)
    ensures |r| <= |s| && r == s[..|r|]
    ensures r != [] ==> !IsSpace(r[|r| - 1])
    ensures forall i :: |r| <= i < |s| ==> IsSpace(s[i])
  {
    if s != [] && IsSpace(s[|s| - 1]) then StripRight(s[..|s| - 1]) else s
  }

  /** Python's `s.strip()`: leading and trailing whitespace removed. */
  function Strip(s: string): (r: string)
    ensures exists i, j ::
              && 0 <= i <= j <= |s| && r == s[i..j]
              && (forall k :: 0 <= k < i ==> IsSpace(s[k]))
              && (forall k :: j <= k < |s| ==> IsSpace(s[k]))
    ensures r != [] ==> !IsSpace(r[0]) && !IsSpace(r[|r| - 1])
  {
    var l := StripLeft(s);
    var r := StripRight(l);
    assert r == s[|s| - |l|..|s| - |l| + |r|];
    r
  }
}

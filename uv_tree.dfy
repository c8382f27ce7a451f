/**
 * `parse_uv_tree_output`, which src/utils/requirements.py and
 * src/ml_util/requirements.py define identically: the lines of `uv tree`
 * output are searched for `name vVERSION` and the distinct `name==VERSION`
 * pins are returned sorted.
 *
 * The pattern is `([A-Z0-9]|[A-Z0-9][A-Z0-9._-]*[A-Z0-9]) v([^\s]+)` under
 * IGNORECASE, applied with `re.search`. PatternAt states it as a relation
 * between a line and the two groups; MatchAt and Search are the leftmost
 * match that `re.search` finds, and SearchMeaning proves they agree.
 */
module UvTree {
  import opened Wrappers
  import opened PyStrings

  /** `[A-Z0-9]` under IGNORECASE, on ASCII letters and digits. */
  predicate Alnum(c: char) {
    ('A' <= c <= 'Z') || ('a' <= c <= 'z') || ('0' <= c <= '9')
  }

  /** `[A-Z0-9._-]` under IGNORECASE. */
  predicate NameChar(c: char) {
    Alnum(c) || c == '.' || c == '_' || c == '-'
  }

  /**
   * The regex matches at `i` with group 1 = `line[i..j]` and group 2 =
   * `line[j + 2..k]`: a name that starts and ends with a letter or digit,
   * a space, `v` in either case, and at least one non-space character.
   */
  ghost predicate PatternAt(line: string, i: nat, j: nat, k: nat) {
    && i < j && j + 2 < k <= |line|
    && Alnum(line[i]) && Alnum(line[j - 1])
    && (forall m :: i <= m < j ==> NameChar(line[m]))
    && line[j] == ' ' && (line[j + 1] == 'v' || line[j + 1] == 'V')
    && (forall m :: j + 2 <= m < k ==> !IsSpace(line[m]))
  }

  /** The end of the longest run of name characters from `i`. */
  function RunEnd(line: string, i: nat): (e: nat)
    requires i <= |line|
    ensures i <= e <= |line|
    ensures forall m :: i <= m < e ==> NameChar(line[m])
    ensures e == |line| || !NameChar(line[e])
    decreases |line| - i
  {
    if i < |line| && NameChar(line[i]) then RunEnd(line, i + 1) else i
  }

  /** The end of the longest run of non-space characters from `i`: where greedy `[^\s]+` stops. */
  function NonSpaceEnd(line: string, i: nat): (e: nat)
    requires i <= |line|
    ensures i <= e <= |line|
    ensures forall m :: i <= m < e ==> !IsSpace(line[m])
    ensures e == |line| || IsSpace(line[e])
    decreases |line| - i
  {
    if i < |line| && !IsSpace(line[i]) then NonSpaceEnd(line, i + 1) else i
  }

  /**
   * The match attempt at `i`. A space cannot be part of a name, so the
   * name must run to the end of the name characters from `i`; backtracking
   * into a shorter name never helps.
   */
  predicate MatchAt(line: string, i: nat)
    requires i <= |line|
  {
    i < |line| && Alnum(line[i]) &&
    var e := RunEnd(line, i);
    Alnum(line[e - 1]) && e + 2 < |line| && line[e] == ' ' &&
    (line[e + 1] == 'v' || line[e + 1] == 'V') && !IsSpace(line[e + 2])
  }

  /** A successful attempt at `i` matches the pattern with the name to the end of the run and the longest version. */
  lemma MatchAtGivesPattern(line: string, i: nat)
    requires i <= |line| && MatchAt(line, i)
    ensures var e := RunEnd(line, i); PatternAt(line, i, e, NonSpaceEnd(line, e + 2))
  {
    var e := RunEnd(line, i);
    assert NonSpaceEnd(line, e + 2) > e + 2;
  }

  /** Any match of the pattern at `i` has the name end at the end of the run, and a version no longer than the greedy one. */
  lemma PatternForcesGroups(line: string, i: nat, j: nat, k: nat)
    requires PatternAt(line, i, j, k)
    ensures j == RunEnd(line, i) && k <= NonSpaceEnd(line, j + 2) && MatchAt(line, i)
  {
    NameEndForced(line, i, j);
    NonSpaceRunMaximal(line, j + 2, k);
  }

  lemma MatchAtIsPattern(line: string, i: nat)
    requires i <= |line|
    ensures MatchAt(line, i) <==> exists j: nat, k: nat :: PatternAt(line, i, j, k)
    ensures forall j: nat, k: nat :: PatternAt(line, i, j, k) ==> j == RunEnd(line, i) && k <= NonSpaceEnd(line, j + 2)
  {
    forall j: nat, k: nat | PatternAt(line, i, j, k)
      ensures j == RunEnd(line, i) && k <= NonSpaceEnd(line, j + 2)
    {
      PatternForcesGroups(line, i, j, k);
    }
    if MatchAt(line, i) {
      MatchAtGivesPattern(line, i);
    } else {
      forall j: nat, k: nat ensures !PatternAt(line, i, j, k) {
        if PatternAt(line, i, j, k) {
          PatternForcesGroups(line, i, j, k);
        }
      }
    }
  }

  lemma {:induction false} NameEndForced(line: string, i: nat, j: nat)
    requires i <= j < |line| && line[j] == ' '
    requires forall m :: i <= m < j ==> NameChar(line[m])
    ensures j == RunEnd(line, i)
    decreases j - i
  {
    if i < j {
      NameEndForced(line, i + 1, j);
    }
  }

  lemma {:induction false} NonSpaceRunMaximal(line: string, i: nat, k: nat)
    requires i <= k <= |line|
    requires forall m :: i <= m < k ==> !IsSpace(line[m])
    ensures k <= NonSpaceEnd(line, i)
    decreases k - i
  {
    if i < k {
      NonSpaceRunMaximal(line, i + 1, k);
    }
  }

  datatype Match = Match(start: nat, name: string, version: string)

  /** The two groups of the match at `i`: the name up to the end of the name characters, the greedy version. */
  function MatchGroups(line: string, i: nat): Match
    requires i <= |line| && MatchAt(line, i)
  {
    var e := RunEnd(line, i);
    Match(i, line[i..e], line[e + 2..NonSpaceEnd(line, e + 2)])
  }

  /** `re.search(pattern, line[from..])`: the first position from `from` where the pattern matches. */
  function Search(line: string, from: nat): Option<Match>
    requires from <= |line|
    decreases |line| - from
  {
    if MatchAt(line, from) then Some(MatchGroups(line, from))
    else if from == |line| then None
    else Search(line, from + 1)
  }

  /** The search stops at the first position where MatchAt holds. */
  lemma {:induction false} SearchFirst(line: string, from: nat)
    requires from <= |line|
    ensures var r := Search(line, from);
      && (r.Some? ==>
        && from <= r.value.start <= |line| && MatchAt(line, r.value.start)
        && (forall i :: from <= i < r.value.start ==> !MatchAt(line, i)))
      && (r.None? ==> forall i :: from <= i <= |line| ==> !MatchAt(line, i))
    decreases |line| - from
  {
    if !MatchAt(line, from) && from < |line| {
      SearchFirst(line, from + 1);
    }
  }

  /**
   * What `re.search` returns, stated on the pattern alone: the leftmost
   * start at which the pattern matches, with the longest version there;
   * no match exactly when the pattern matches nowhere.
   */
  lemma SearchMeaning(line: string)
    ensures Search(line, 0).None? <==> forall i: nat, j: nat, k: nat :: !PatternAt(line, i, j, k)
    ensures Search(line, 0).Some? ==>
      var m := Search(line, 0).value;
      var j := m.start + |m.name|;
      var k := j + 2 + |m.version|;
      && PatternAt(line, m.start, j, k)
      && (forall i: nat, j': nat, k': nat :: PatternAt(line, i, j', k') ==> m.start <= i)
      && (forall k': nat :: PatternAt(line, m.start, j, k') ==> k' <= k)
  {
    var r := Search(line, 0);
    SearchFirst(line, 0);
    forall i: nat, j: nat, k: nat | PatternAt(line, i, j, k)
      ensures r.Some? && r.value.start <= i
    {
      SearchFindsLeftmost(line, i, j, k);
    }
    if r.Some? {
      SearchGroups(line);
    }
  }

  /** The two groups of a successful attempt match the pattern, and no longer version matches with the same name. */
  lemma MatchGroupsPattern(line: string, i: nat)
    requires i <= |line| && MatchAt(line, i)
    ensures var g := MatchGroups(line, i); var j := i + |g.name|;
      && PatternAt(line, i, j, j + 2 + |g.version|)
      && forall k: nat :: PatternAt(line, i, j, k) ==> k <= j + 2 + |g.version|
  {
    MatchAtGivesPattern(line, i);
    var e := RunEnd(line, i);
    forall k: nat | PatternAt(line, i, e, k) ensures k <= NonSpaceEnd(line, e + 2) {
      PatternForcesGroups(line, i, e, k);
    }
  }

  /** A found match is the groups read at a position where the attempt succeeds. */
  lemma {:induction false} SearchResult(line: string, from: nat)
    requires from <= |line|
    ensures var r := Search(line, from);
      r.Some? ==> from <= r.value.start <= |line| && MatchAt(line, r.value.start) && r.value == MatchGroups(line, r.value.start)
    decreases |line| - from
  {
    if !MatchAt(line, from) && from < |line| {
      SearchResult(line, from + 1);
    }
  }

  /** The found groups match the pattern, and no longer version matches with the same name. */
  lemma SearchGroups(line: string)
    requires Search(line, 0).Some?
    ensures var m := Search(line, 0).value;
      var j := m.start + |m.name|;
      && PatternAt(line, m.start, j, j + 2 + |m.version|)
      && forall k: nat :: PatternAt(line, m.start, j, k) ==> k <= j + 2 + |m.version|
  {
    SearchResult(line, 0);
    MatchGroupsPattern(line, Search(line, 0).value.start);
  }

  lemma SearchFindsLeftmost(line: string, i: nat, j: nat, k: nat)
    requires PatternAt(line, i, j, k)
    ensures Search(line, 0).Some? && Search(line, 0).value.start <= i
  {
    MatchAtIsPattern(line, i);
    SearchFirst(line, 0);
    assert MatchAt(line, i);
  }

  /** The pin a line contributes: `f'{pkg_name}=={version}'`, or nothing. */
  function Requirement(line: string): Option<string> {
    match Search(line, 0)
    case None => None
    case Some(m) => Some(m.name + "==" + m.version)
  }

  /** A line contributes a pin exactly when the pattern matches in it; the pin is `name==version`, neither part empty. */
  lemma RequirementMeaning(line: string)
    ensures Requirement(line).Some? <==> exists i: nat, j: nat, k: nat :: PatternAt(line, i, j, k)
    ensures Requirement(line).Some? ==>
      exists name, version :: Requirement(line).value == name + "==" + version && name != [] && version != []
  {
    SearchMeaning(line);
    if Search(line, 0).Some? {
      var m := Search(line, 0).value;
      SearchResult(line, 0);
      MatchGroupsPattern(line, m.start);
      assert m.name != [] && m.version != [];
      assert Requirement(line).value == m.name + "==" + m.version;
    }
  }

  /** `output.strip().split('\n')`, without its first line when `ignore_first`. */
  function Lines(output: string, ignoreFirst: bool): seq<string> {
    var lines := Split(Strip(output), '\n');
    if ignoreFirst then lines[1..] else lines
  }

  /** The pins of the lines, in line order, repeats included. */
  function Found(lines: seq<string>): seq<string> {
    if lines == [] then []
    else
      var last := |lines| - 1;
      match Requirement(lines[last])
      case None => Found(lines[..last])
      case Some(e) => Found(lines[..last]) + [e]
  }

  lemma {:induction false} FoundMeaning(lines: seq<string>)
    ensures forall e :: e in Found(lines) <==> exists n :: 0 <= n < |lines| && Requirement(lines[n]) == Some(e)
  {
    if lines != [] {
      var last := |lines| - 1;
      FoundMeaning(lines[..last]);
      assert forall n :: 0 <= n < last ==> lines[n] == lines[..last][n];
    }
  }

  /** What `parse_uv_tree_output` returns. */
  function Parsed(output: string, ignoreFirst: bool): seq<string> {
    SortedDistinct(Found(Lines(output, ignoreFirst)))
  }

  /** The parsed pins are strictly sorted, so free of repeats, and are exactly the pins of the lines. */
  lemma ParsedMeaning(output: string, ignoreFirst: bool)
    ensures StrictlySorted(Parsed(output, ignoreFirst))
    ensures forall e :: e in Parsed(output, ignoreFirst) <==>
      exists n :: 0 <= n < |Lines(output, ignoreFirst)| && Requirement(Lines(output, ignoreFirst)[n]) == Some(e)
  {
    FoundMeaning(Lines(output, ignoreFirst));
  }

  /** Every returned entry is a `name==version` pin with both parts non-empty. */
  lemma ParsedArePins(output: string, ignoreFirst: bool)
    ensures forall e :: e in Parsed(output, ignoreFirst) ==>
      exists name, version :: e == name + "==" + version && name != [] && version != []
  {
    ParsedMeaning(output, ignoreFirst);
    forall e | e in Parsed(output, ignoreFirst)
      ensures exists name, version :: e == name + "==" + version && name != [] && version != []
    {
      var n :| 0 <= n < |Lines(output, ignoreFirst)| && Requirement(Lines(output, ignoreFirst)[n]) == Some(e);
      RequirementMeaning(Lines(output, ignoreFirst)[n]);
    }
  }

  /** `sorted(requirements)` of a set of strings. */
  method SortedSet(s: set<string>) returns (r: seq<string>)
    ensures StrictlySorted(r)
    ensures forall e :: e in r <==> e in s
  {
    r := [];
    var rest := s;
    while rest != {}
      invariant rest <= s
      invariant StrictlySorted(r)
      invariant forall e :: e in r <==> e in s && e !in rest
      decreases |rest|
    {
      var x :| x in rest;
      r := Insert(x, r);
      rest := rest - {x};
    }
  }

  /** The loop of `parse_uv_tree_output`: the pin of each matching line added to a set. */
  method CollectPins(lines: seq<string>) returns (requirements: set<string>)
    ensures forall e :: e in requirements <==> e in Found(lines)
  {
    requirements := {};
    for n := 0 to |lines|
      invariant forall e :: e in requirements <==> e in Found(lines[..n])
    {
      var found := Requirement(lines[n]);
      if found.Some? {
        requirements := requirements + {found.value};
      }
      assert lines[..n + 1][..n] == lines[..n];
    }
    assert lines[..|lines|] == lines;
  }

  /** `parse_uv_tree_output(output, ignore_first)`: the pins of the lines, collected in a set, then sorted. */
  method ParseUvTreeOutput(output: string, ignoreFirst: bool) returns (r: seq<string>)
    ensures r == Parsed(output, ignoreFirst)
  {
    var lines := Split(Strip(output), '\n');
    if ignoreFirst {
      lines := lines[1..];
    }
    assert lines == Lines(output, ignoreFirst);
    var requirements := CollectPins(lines);
    FoundMeaning(lines);
    r := SortedSet(requirements);
    ParsedMeaning(output, ignoreFirst);
    StrictlySortedUnique(r, Parsed(output, ignoreFirst));
  }
}

/**
 * `ConciseFormatter.format` in src/utils/logging.py: a log line is the
 * first letter of the level, the elapsed time, the module name cut to the
 * first letter of each dotted component, and the message. The elapsed
 * time arrives already formatted (`f'{elapsed:.1f}'`), since the clock and
 * float formatting are not modelled.
 */
module ConciseLog {
  import opened Wrappers
  import opened PyStrings

  /** `p[0]` or `levelname[0]` on an empty string. */
  datatype FormatError = IndexError

  const PrefixWidth := 15

  /** A string of `n` spaces. */
  function Spaces(n: nat): (r: string)
    ensures |r| == n && forall i :: 0 <= i < n ==> r[i] == ' '
  {
    if n == 0 then "" else [' '] + Spaces(n - 1)
  }

  /** `f'{s:{width}s}'`: left-aligned, padded with spaces, never cut. */
  function PadRight(s: string, width: nat): (r: string)
    ensures |r| == if |s| >= width then |s| else width
    ensures r[..|s|] == s
    ensures forall i :: |s| <= i < |r| ==> r[i] == ' '
  {
    if |s| >= width then s else s + Spaces(width - |s|)
  }

  /** `'.'.join(p[0] for p in name.split('.'))`. */
  function Abbreviate(name: string): (r: Result<string, FormatError>)
  {
    var parts := Split(name, '.');
    if HasEmptyPart(parts) then Err(IndexError)
    else Ok(Join(seq(|parts|, i requires 0 <= i < |parts| => [parts[i][0]]), '.'))
  }

  /** A name has an empty component exactly when it is empty, starts or ends with a dot, or has two dots in a row. */
  predicate HasEmptyComponent(s: string, sep: char) {
    s == "" || s[0] == sep || s[|s| - 1] == sep || exists i :: 0 <= i < |s| - 1 && s[i] == sep && s[i + 1] == sep
  }

  predicate HasEmptyPart(parts: seq<string>) {
    exists i :: 0 <= i < |parts| && parts[i] == ""
  }

  lemma {:induction false} EmptyPartIffEmptyComponent(s: string, sep: char)
    ensures HasEmptyPart(Split(s, sep)) <==> HasEmptyComponent(s, sep)
    decreases |s|
  {
    if sep in s {
      var k := IndexOf(s, sep);
      EmptyPartIffEmptyComponent(s[k + 1..], sep);
      EmptyPartStep(s, sep, k);
      EmptyComponentStep(s, sep, k);
    } else {
      assert Split(s, sep) == [s];
      if s == "" {
        assert Split(s, sep)[0] == "";
      } else {
        assert s[0] != sep && s[|s| - 1] != sep;
        assert forall i :: 0 <= i < |s| ==> s[i] != sep;
      }
    }
  }

  /** Splitting at the first separator: the first part is empty exactly when the separator comes first. */
  lemma EmptyPartStep(s: string, sep: char, k: nat)
    requires sep in s && k == IndexOf(s, sep)
    ensures HasEmptyPart(Split(s, sep)) <==> k == 0 || HasEmptyPart(Split(s[k + 1..], sep))
  {
    var parts := Split(s, sep);
    var rest := Split(s[k + 1..], sep);
    assert parts == [s[..k]] + rest;
    if HasEmptyPart(rest) {
      var i :| 0 <= i < |rest| && rest[i] == "";
      assert parts[i + 1] == "";
    }
    if HasEmptyPart(parts) && k != 0 {
      var i :| 0 <= i < |parts| && parts[i] == "";
      assert i > 0 && rest[i - 1] == "";
    }
  }

  lemma EmptyComponentStep(s: string, sep: char, k: nat)
    requires sep in s && k == IndexOf(s, sep)
    ensures HasEmptyComponent(s, sep) <==> k == 0 || HasEmptyComponent(s[k + 1..], sep)
  {
    var t := s[k + 1..];
    if HasEmptyComponent(t, sep) {
      if t == "" {
        assert s[|s| - 1] == sep;
      } else if t[0] == sep {
        assert s[k] == sep && s[k + 1] == sep;
      } else if t[|t| - 1] == sep {
        assert s[|s| - 1] == sep;
      } else {
        var i :| 0 <= i < |t| - 1 && t[i] == sep && t[i + 1] == sep;
        assert s[k + 1 + i] == sep && s[k + 2 + i] == sep;
      }
    }
    if HasEmptyComponent(s, sep) && k != 0 {
      assert s[0] != sep;
      if s[|s| - 1] == sep {
        if k == |s| - 1 { assert t == ""; } else { assert t[|t| - 1] == sep; }
      } else {
        var i :| 0 <= i < |s| - 1 && s[i] == sep && s[i + 1] == sep;
        if i == k { assert t[0] == sep; }
        if i > k { assert t[i - k - 1] == sep && t[i - k] == sep; }
      }
    }
  }

  /** Joining one-character strings with `.` puts them at the even positions and dots at the odd ones. */
  lemma {:induction false} JoinSingles(cs: seq<string>)
    requires |cs| >= 1 && forall i :: 0 <= i < |cs| ==> |cs[i]| == 1
    ensures |Join(cs, '.')| == 2 * |cs| - 1
    ensures forall i :: 0 <= i < |cs| ==> Join(cs, '.')[2 * i] == cs[i][0]
    ensures forall i :: 0 <= i < |cs| - 1 ==> Join(cs, '.')[2 * i + 1] == '.'
  {
    if |cs| > 1 {
      JoinSingles(cs[1..]);
      var rest := Join(cs[1..], '.');
      assert Join(cs, '.') == cs[0] + ['.'] + rest;
      forall i | 1 <= i < |cs| ensures Join(cs, '.')[2 * i] == cs[i][0] {
        assert Join(cs, '.')[2 * i] == rest[2 * (i - 1)];
      }
      forall i | 1 <= i < |cs| - 1 ensures Join(cs, '.')[2 * i + 1] == '.' {
        assert Join(cs, '.')[2 * i + 1] == rest[2 * (i - 1) + 1];
      }
    }
  }

  /**
   * The abbreviation fails exactly on names with an empty component. Otherwise
   * it has one letter per component, the component's first, with dots between.
   */
  lemma AbbreviateMeaning(name: string)
    ensures Abbreviate(name).Err? <==> HasEmptyComponent(name, '.')
    ensures Abbreviate(name).Ok? ==>
      var parts := Split(name, '.');
      var a := Abbreviate(name).value;
      && |a| == 2 * |parts| - 1
      && (forall i :: 0 <= i < |parts| ==> a[2 * i] == parts[i][0])
      && (forall i :: 0 <= i < |parts| - 1 ==> a[2 * i + 1] == '.')
  {
    EmptyPartIffEmptyComponent(name, '.');
    var parts := Split(name, '.');
    if !HasEmptyPart(parts) {
      var cs := seq(|parts|, i requires 0 <= i < |parts| => [parts[i][0]]);
      assert Abbreviate(name) == Ok(Join(cs, '.'));
      JoinSingles(cs);
    }
  }

  /** The text before the padding: `f'{level} {elapsed} {abbr}:'`. */
  function Prefix(levelname: string, elapsed: string, abbr: string): string
    requires levelname != ""
  {
    [levelname[0]] + " " + elapsed + " " + abbr + ":"
  }

  /** `format(record)`: `f'{prefix:15s}{message}'`. */
  function Format(levelname: string, elapsed: string, name: string, message: string): (r: Result<string, FormatError>)
  {
    if levelname == "" then Err(IndexError)
    else match Abbreviate(name)
      case Err(e) => Err(e)
      case Ok(abbr) => Ok(PadRight(Prefix(levelname, elapsed, abbr), PrefixWidth) + message)
  }

  /**
   * Formatting fails exactly for an empty level name or a module name with
   * an empty component. Otherwise the line is the prefix, spaces up to
   * column 15 when the prefix is shorter, and then the message with no
   * separator; a longer prefix is kept whole.
   */
  lemma FormatMeaning(levelname: string, elapsed: string, name: string, message: string)
    ensures Format(levelname, elapsed, name, message).Err? <==> levelname == "" || HasEmptyComponent(name, '.')
    ensures Format(levelname, elapsed, name, message).Ok? ==>
      var line := Format(levelname, elapsed, name, message).value;
      var p := Prefix(levelname, elapsed, Abbreviate(name).value);
      var w := if |p| >= PrefixWidth then |p| else PrefixWidth;
      && |line| == w + |message|
      && line[..|p|] == p
      && (forall i :: |p| <= i < w ==> line[i] == ' ')
      && line[w..] == message
      && line[0] == levelname[0] && line[1] == ' '
  {
    EmptyPartIffEmptyComponent(name, '.');
    if levelname != "" && Abbreviate(name).Ok? {
      var p := Prefix(levelname, elapsed, Abbreviate(name).value);
      assert Format(levelname, elapsed, name, message) == Ok(PadRight(p, PrefixWidth) + message);
      PaddedLine(p, message);
      assert p[0] == levelname[0] && p[1] == ' ';
    }
  }

  lemma PaddedLine(p: string, message: string)
    ensures var line := PadRight(p, PrefixWidth) + message;
      var w := if |p| >= PrefixWidth then |p| else PrefixWidth;
      && |line| == w + |message|
      && line[..|p|] == p
      && (forall i :: |p| <= i < w ==> line[i] == ' ')
      && line[w..] == message
  {
    var padded := PadRight(p, PrefixWidth);
    var line := padded + message;
    assert line[..|p|] == padded[..|p|];
    assert line[|padded|..] == message;
  }
}

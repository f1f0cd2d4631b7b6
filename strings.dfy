/**
 * The three functions of Go's `strings` package that the exporter relies on,
 * restricted to the one-character patterns it passes them: `Replace` with a
 * replacement count of -1, `Split` and `Join`. Go strings are byte strings;
 * every pattern used here is ASCII, so working on characters changes nothing.
 */
module Strings {

  /** `strings.Replace(s, [from], [to], -1)`: every occurrence of `from` becomes `to`. */
  function ReplaceAll(s: string, from: char, to: char): string
  {
    seq(|s|, i requires 0 <= i < |s| => if s[i] == from then to else s[i])
  }

  /** Replacing leaves no `from` behind, keeps the length, and touches no other character. */
  lemma ReplaceAllReplaces(s: string, from: char, to: char)
    requires from != to
    ensures |ReplaceAll(s, from, to)| == |s|
    ensures from !in ReplaceAll(s, from, to)
    ensures to in ReplaceAll(s, from, to) <==> to in s || from in s
    ensures forall c :: c != from && c != to ==> (c in ReplaceAll(s, from, to) <==> c in s)
  {
    var r := ReplaceAll(s, from, to);
    if to in s || from in s {
      var i :| 0 <= i < |s| && (s[i] == to || s[i] == from);
      assert r[i] == to;
    }
    forall c | c != from && c != to
      ensures c in r <==> c in s
    {
      if c in s {
        var i :| 0 <= i < |s| && s[i] == c;
        assert r[i] == c;
      }
    }
  }

  /** `strings.Join(parts, sep)`: the parts with `sep` between neighbours; no parts give "". */
  function Join(parts: seq<string>, sep: string): string
  {
    if |parts| == 0 then ""
    else if |parts| == 1 then parts[0]
    else parts[0] + sep + Join(parts[1..], sep)
  }

  /**
   * `strings.Split(s, sep)` for a one-character separator: the pieces between
   * separators, so "" gives [""] and "a:" gives ["a", ""]. The two properties
   * below determine the result: no piece holds the separator, and joining the
   * pieces with it gives back `s`.
   */
  function Split(s: string, sep: char): (parts: seq<string>)
    ensures |parts| >= 1
    ensures forall k :: 0 <= k < |parts| ==> sep !in parts[k]
    ensures Join(parts, [sep]) == s
    decreases |s|
  {
    if |s| == 0 then [""]
    else
      var rest := Split(s[1..], sep);
      if s[0] == sep then
        assert ([""] + rest)[1..] == rest;
        [""] + rest
      else
        JoinExtendFirst([s[0]], rest, [sep]);
        [[s[0]] + rest[0]] + rest[1..]
  }

  /** Putting `x` in front of the first part puts it in front of the joined text. */
  lemma JoinExtendFirst(x: string, parts: seq<string>, sep: string)
    requires |parts| >= 1
    ensures Join([x + parts[0]] + parts[1..], sep) == x + Join(parts, sep)
  {
    var q := [x + parts[0]] + parts[1..];
    if |parts| > 1 {
      assert q[1..] == parts[1..];
    }
  }

  /** A text without the separator is one piece. */
  lemma {:induction false} SplitWithoutSeparator(s: string, sep: char)
    requires sep !in s
    ensures Split(s, sep) == [s]
  {
    if |s| > 0 {
      SplitWithoutSeparator(s[1..], sep);
    }
  }

  /** The first separator ends the first piece; the rest is split on its own. */
  lemma {:induction false} SplitAtFirst(a: string, b: string, sep: char)
    requires sep !in a
    ensures Split(a + [sep] + b, sep) == [a] + Split(b, sep)
  {
    var s := a + [sep] + b;
    if a == [] {
      assert s[1..] == b;
    } else {
      assert s[1..] == a[1..] + [sep] + b;
      SplitAtFirst(a[1..], b, sep);
      assert [a[0]] + a[1..] == a;
    }
  }

  /** Split undoes Join when no part holds the separator. */
  lemma {:induction false} SplitJoin(parts: seq<string>, sep: char)
    requires |parts| >= 1
    requires forall k :: 0 <= k < |parts| ==> sep !in parts[k]
    ensures Split(Join(parts, [sep]), sep) == parts
  {
    if |parts| == 1 {
      SplitWithoutSeparator(parts[0], sep);
    } else {
      SplitJoin(parts[1..], sep);
      SplitAtFirst(parts[0], Join(parts[1..], [sep]), sep);
      assert [parts[0]] + parts[1..] == parts;
    }
  }

  /**
   * When `s` holds the separator, there are at least two pieces, and `s`
   * starts with the first piece, the separator and the second piece, followed
   * either by nothing or by another separator.
   */
  lemma SplitFirstTwo(s: string, sep: char)
    requires sep in s
    ensures var c := Split(s, sep); var n := |c[0]| + 1 + |c[1]|;
      && |c| >= 2
      && n <= |s| && s[..n] == c[0] + [sep] + c[1]
      && (n == |s| || s[n] == sep)
  {
    var c := Split(s, sep);
    assert s == c[0] + [sep] + Join(c[1..], [sep]);
    var n := |c[0]| + 1 + |c[1]|;
    if |c| == 2 {
      assert c[1..] == [c[1]];
      assert s == c[0] + [sep] + c[1];
    } else {
      assert c[1..][1..] == c[2..];
      assert Join(c[1..], [sep]) == c[1] + [sep] + Join(c[2..], [sep]);
      assert s == (c[0] + [sep] + c[1]) + ([sep] + Join(c[2..], [sep]));
    }
  }

  /** Joined text ends with the last part. */
  lemma {:induction false} JoinEndsWithLast(parts: seq<string>, sep: string)
    requires |parts| >= 1
    ensures var j := Join(parts, sep); var last := parts[|parts| - 1];
      |last| <= |j| && j[|j| - |last|..] == last
  {
    if |parts| > 1 {
      JoinEndsWithLast(parts[1..], sep);
    }
  }
}

/** The Python string operations the cache paths are built with: `split`,
 `join`, `startswith`, `endswith`, and `replace(old, "")`. */
module Text {

  /** Python's `s.startswith(prefix)`. */
  predicate StartsWith(s: string, prefix: string) {
    |prefix| <= |s| && s[..|prefix|] == prefix
  }

  /** Python's `s.endswith(suffix)`. */
  predicate EndsWith(s: string, suffix: string) {
    |suffix| <= |s| && s[|s| - |suffix|..] == suffix
  }

  /** Python's `s.split(sep)` for a one-character separator: the pieces
      between separators, in order; there is always at least one piece and
      pieces may be empty. */
  function Split(s: string, sep: char): (parts: seq<string>)
    ensures |parts| >= 1
    ensures forall i :: 0 <= i < |parts| ==> sep !in parts[i]
  {
    if |s| == 0 then [""]
    else
      var rest := Split(s[1..], sep);
      if s[0] == sep then [""] + rest
      else [[s[0]] + rest[0]] + rest[1..]
  }

  /** Python's `sep.join(parts)`. */
  function Join(parts: seq<string>, sep: char): string {
    if |parts| == 0 then ""
    else if |parts| == 1 then parts[0]
    else parts[0] + [sep] + Join(parts[1..], sep)
  }

  /** Python's `s.split(sep)[-1]`: the text after the last separator. */
  function LastSegment(s: string, sep: char): string {
    var parts := Split(s, sep);
    parts[|parts| - 1]
  }

  /** Python's `s.replace(pat, "")`: occurrences of `pat` are found from the
      left, without overlap, and dropped. Replacing the empty string by the
      empty string leaves `s` as it is. */
  function RemoveAll(s: string, pat: string): (r: string)
    ensures |r| <= |s|
  {
    if |pat| == 0 || |s| < |pat| then s
    else if s[..|pat|] == pat then RemoveAll(s[|pat|..], pat)
    else [s[0]] + RemoveAll(s[1..], pat)
  }

  /** Joining the pieces of a split gives back the original string. */
  lemma {:induction false} JoinSplit(s: string, sep: char)
    ensures Join(Split(s, sep), sep) == s
  {
    if |s| > 0 {
      var rest := Split(s[1..], sep);
      JoinSplit(s[1..], sep);
      if s[0] == sep {
        assert ([""] + rest)[1..] == rest;
      } else {
        var parts := [[s[0]] + rest[0]] + rest[1..];
        if |rest| > 1 {
          assert parts[1..] == rest[1..];
          assert Join(rest, sep) == rest[0] + [sep] + Join(rest[1..], sep);
        }
        assert Join(parts, sep) == [s[0]] + Join(rest, sep);
        assert [s[0]] + s[1..] == s;
      }
    }
  }

  /** A string without the separator splits into itself alone. */
  lemma {:induction false} SplitWithoutSeparator(s: string, sep: char)
    requires sep !in s
    ensures Split(s, sep) == [s]
  {
    if |s| > 0 {
      SplitWithoutSeparator(s[1..], sep);
      assert [s[0]] + s[1..] == s;
    }
  }

  /** Splitting `a + sep + b`, with no separator in `a`, yields `a` followed by the pieces of `b`. */
  lemma {:induction false} SplitAfterSeparator(a: string, b: string, sep: char)
    requires sep !in a
    ensures Split(a + [sep] + b, sep) == [a] + Split(b, sep)
  {
    var s := a + [sep] + b;
    if |a| == 0 {
      assert s[1..] == b;
    } else {
      assert s[1..] == a[1..] + [sep] + b;
      SplitAfterSeparator(a[1..], b, sep);
      assert [a[0]] + a[1..] == a;
    }
  }

  /** Splitting a join of separator-free pieces gives back the pieces. */
  lemma {:induction false} SplitJoin(parts: seq<string>, sep: char)
    requires |parts| >= 1
    requires forall i :: 0 <= i < |parts| ==> sep !in parts[i]
    ensures Split(Join(parts, sep), sep) == parts
  {
    if |parts| == 1 {
      SplitWithoutSeparator(parts[0], sep);
    } else {
      SplitJoin(parts[1..], sep);
      SplitAfterSeparator(parts[0], Join(parts[1..], sep), sep);
      assert [parts[0]] + parts[1..] == parts;
    }
  }

  /** A split has a single piece exactly when the separator does not occur. */
  lemma SplitSingleIff(s: string, sep: char)
    ensures |Split(s, sep)| == 1 <==> sep !in s
  {
    if sep !in s {
      SplitWithoutSeparator(s, sep);
    } else {
      JoinSplit(s, sep);
    }
  }

  /** A join of two or more pieces ends with a separator and the last piece. */
  lemma {:induction false} JoinSnoc(parts: seq<string>, sep: char)
    requires |parts| >= 2
    ensures Join(parts, sep) == Join(parts[..|parts| - 1], sep) + [sep] + parts[|parts| - 1]
  {
    if |parts| > 2 {
      JoinSnoc(parts[1..], sep);
      assert parts[1..][..|parts| - 2] == parts[..|parts| - 1][1..];
    }
  }

  /** A non-empty join ends with its last piece. */
  lemma JoinEndsWithLast(parts: seq<string>, sep: char)
    ensures |parts| >= 1 ==> EndsWith(Join(parts, sep), parts[|parts| - 1])
  {
    if |parts| >= 2 {
      JoinSnoc(parts, sep);
    }
  }

  /** The last segment is the longest separator-free suffix: it ends the
      string, holds no separator, and is either the whole string or
      preceded by a separator. */
  lemma LastSegmentIsSuffix(s: string, sep: char)
    ensures sep !in LastSegment(s, sep)
    ensures EndsWith(s, LastSegment(s, sep))
    ensures |LastSegment(s, sep)| < |s| ==> s[|s| - |LastSegment(s, sep)| - 1] == sep
  {
    var parts := Split(s, sep);
    JoinSplit(s, sep);
    if |parts| >= 2 {
      JoinSnoc(parts, sep);
    }
  }

  /** After a separator (or at the start), a separator-free tail is the last segment. */
  lemma {:induction false} LastSegmentOfTail(x: string, b: string, sep: char)
    requires |x| == 0 || x[|x| - 1] == sep
    requires sep !in b
    ensures LastSegment(x + b, sep) == b
  {
    if |x| == 0 {
      assert x + b == b;
      SplitWithoutSeparator(b, sep);
    } else {
      var s := x + b;
      assert s[1..] == x[1..] + b;
      LastSegmentOfTail(x[1..], b, sep);
      if s[0] != sep {
        assert (x[1..] + b)[|x| - 2] == sep;
        SplitSingleIff(x[1..] + b, sep);
      }
    }
  }

  /** A string ending in the separator has an empty last segment. */
  lemma LastSegmentOfTrailing(s: string, sep: char)
    ensures |s| > 0 && s[|s| - 1] == sep ==> LastSegment(s, sep) == ""
  {
    if |s| > 0 && s[|s| - 1] == sep {
      assert s + "" == s;
      LastSegmentOfTail(s, "", sep);
    }
  }

  /** Nothing is removed from a string that lacks one of the pattern's characters. */
  lemma {:induction false} RemoveAllAbsent(s: string, pat: string, j: nat)
    requires j < |pat| && pat[j] !in s
    ensures RemoveAll(s, pat) == s
  {
    if |s| >= |pat| {
      assert s[..|pat|][j] == s[j];
      RemoveAllAbsent(s[1..], pat, j);
      assert [s[0]] + s[1..] == s;
    }
  }

  /** A leading occurrence of the pattern is dropped. */
  lemma RemoveAllLeading(pat: string, s: string)
    requires |pat| > 0
    ensures RemoveAll(pat + s, pat) == RemoveAll(s, pat)
  {
    assert (pat + s)[..|pat|] == pat;
    assert (pat + s)[|pat|..] == s;
  }

  /** Cutting at the first separator is unambiguous: a piece without the
      separator, the separator, and the rest determine each other. */
  lemma CutAtFirst(a: string, b: string, c: string, d: string, sep: char)
    requires sep !in a && sep !in c
    requires a + [sep] + b == c + [sep] + d
    ensures a == c && b == d
  {
    SplitAfterSeparator(a, b, sep);
    SplitAfterSeparator(c, d, sep);
    assert a == Split(a + [sep] + b, sep)[0];
    var x := a + [sep] + b;
    assert b == x[|a| + 1..] && d == x[|c| + 1..];
  }

  /** A character that is neither the separator nor in any piece is not in
      the joined string. */
  lemma {:induction false} JoinAvoids(parts: seq<string>, sep: char, c: char)
    requires c != sep
    requires forall i :: 0 <= i < |parts| ==> c !in parts[i]
    ensures c !in Join(parts, sep)
  {
    if |parts| > 1 {
      JoinAvoids(parts[1..], sep, c);
      assert parts[0] + [sep] + Join(parts[1..], sep) == Join(parts, sep);
    }
  }
}

/** Text operations of Python's `str` that the client uses to read the
    provider's plain-text replies: `startswith`, `split` on one separator,
    `replace(pattern, "")`, and `join` as the inverse of `split`. */
module Strings {

  /** `s.startswith(prefix)`: anchored at the start, case-sensitive. */
  predicate StartsWith(s: string, prefix: string) {
    |prefix| <= |s| && s[..|prefix|] == prefix
  }

  /** `pattern` stands in `s` starting at position `i`. */
  predicate OccursAt(pattern: string, s: string, i: int) {
    0 <= i && i + |pattern| <= |s| && s[i..i + |pattern|] == pattern
  }

  /** `pattern in s` for a pattern of any length. */
  predicate Occurs(pattern: string, s: string) {
    exists i | 0 <= i <= |s| :: OccursAt(pattern, s, i)
  }

  /** `s.split(sep)` for a one-character separator: the pieces between the
      separators, in order, including empty ones; never an empty list. */
  function Split(s: string, sep: char): (pieces: seq<string>)
    ensures |pieces| >= 1
    decreases |s|
  {
    if s == [] then [""]
    else
      var rest := Split(s[1..], sep);
      if s[0] == sep then [""] + rest
      else [[s[0]] + rest[0]] + rest[1..]
  }

  /** `sep.join(pieces)`. */
  function Join(pieces: seq<string>, sep: char): string
    decreases |pieces|
  {
    if pieces == [] then ""
    else if |pieces| == 1 then pieces[0]
    else pieces[0] + [sep] + Join(pieces[1..], sep)
  }

  /** `s.replace(pattern, "")`: one left-to-right pass that drops every
      non-overlapping occurrence; what is left may contain new occurrences. */
  function RemoveAll(s: string, pattern: string): (r: string)
    requires |pattern| > 0
    ensures |r| <= |s|
    decreases |s|
  {
    if |s| < |pattern| then s
    else if s[..|pattern|] == pattern then RemoveAll(s[|pattern|..], pattern)
    else [s[0]] + RemoveAll(s[1..], pattern)
  }

  /** Joining the pieces of a split gives back the original text. */
  lemma {:induction false} JoinSplit(s: string, sep: char)
    ensures Join(Split(s, sep), sep) == s
    decreases |s|
  {
    if s != [] {
      var rest := Split(s[1..], sep);
      JoinSplit(s[1..], sep);
      if s[0] == sep {
        assert Split(s, sep) == [""] + rest;
        assert ([""] + rest)[1..] == rest;
      } else {
        var pieces := Split(s, sep);
        assert pieces == [[s[0]] + rest[0]] + rest[1..];
        if |rest| == 1 {
          assert pieces == [[s[0]] + rest[0]];
        } else {
          assert pieces[1..] == rest[1..];
          assert Join(rest, sep) == rest[0] + [sep] + Join(rest[1..], sep);
        }
      }
    }
  }

  /** No piece of a split contains the separator. */
  lemma {:induction false} SplitPiecesFree(s: string, sep: char)
    ensures forall k :: 0 <= k < |Split(s, sep)| ==> sep !in Split(s, sep)[k]
    decreases |s|
  {
    if s != [] {
      SplitPiecesFree(s[1..], sep);
    }
  }

  /** A text without the separator splits into itself. */
  lemma {:induction false} SplitWithoutSeparator(s: string, sep: char)
    requires sep !in s
    ensures Split(s, sep) == [s]
    decreases |s|
  {
    if s != [] {
      assert s[0] != sep && sep !in s[1..];
      SplitWithoutSeparator(s[1..], sep);
      assert [s[0]] + s[1..] == s;
    }
  }

  /** Splitting `p + sep + t`, where `p` has no separator, yields `p` and
      then the pieces of `t`. */
  lemma {:induction false} SplitAfterPiece(p: string, t: string, sep: char)
    requires sep !in p
    ensures Split(p + [sep] + t, sep) == [p] + Split(t, sep)
    decreases |p|
  {
    if p == [] {
      assert [] + [sep] + t == [sep] + t;
      assert ([sep] + t)[1..] == t;
    } else {
      SplitAfterPiece(p[1..], t, sep);
      assert (p + [sep] + t)[1..] == p[1..] + [sep] + t;
      assert [p[0]] + p[1..] == p;
    }
  }

  /** Split is the inverse of Join on pieces free of the separator: the
      split of a joined list recovers the list. */
  lemma {:induction false} SplitJoin(pieces: seq<string>, sep: char)
    requires |pieces| >= 1
    requires forall k :: 0 <= k < |pieces| ==> sep !in pieces[k]
    ensures Split(Join(pieces, sep), sep) == pieces
    decreases |pieces|
  {
    if |pieces| == 1 {
      SplitWithoutSeparator(pieces[0], sep);
    } else {
      SplitJoin(pieces[1..], sep);
      SplitAfterPiece(pieces[0], Join(pieces[1..], sep), sep);
      assert [pieces[0]] + pieces[1..] == pieces;
    }
  }

  /** A character that is neither the separator nor in any piece does not
      occur in the joined text. */
  lemma {:induction false} JoinAvoids(pieces: seq<string>, sep: char, c: char)
    requires c != sep
    requires forall k :: 0 <= k < |pieces| ==> c !in pieces[k]
    ensures c !in Join(pieces, sep)
    decreases |pieces|
  {
    if |pieces| > 1 {
      JoinAvoids(pieces[1..], sep, c);
    }
  }

  /** The joined text starts the way its first piece does. */
  lemma JoinStartsWith(pieces: seq<string>, sep: char, prefix: string)
    requires |pieces| >= 1 && StartsWith(pieces[0], prefix)
    ensures StartsWith(Join(pieces, sep), prefix)
  {
    if |pieces| > 1 {
      var rest := [sep] + Join(pieces[1..], sep);
      assert Join(pieces, sep) == pieces[0] + rest;
      assert (pieces[0] + rest)[..|prefix|] == pieces[0][..|prefix|];
    }
  }

  /** Removing a pattern from text that does not contain it changes nothing. */
  lemma {:induction false} RemoveAllAbsent(s: string, pattern: string)
    requires |pattern| > 0
    requires !Occurs(pattern, s)
    ensures RemoveAll(s, pattern) == s
    decreases |s|
  {
    if |s| >= |pattern| {
      assert !OccursAt(pattern, s, 0);
      assert s[0..0 + |pattern|] == s[..|pattern|];
      forall i ensures !OccursAt(pattern, s[1..], i) {
        if 0 <= i && i + |pattern| <= |s[1..]| {
          assert s[1..][i..i + |pattern|] == s[i + 1..i + 1 + |pattern|];
          assert !OccursAt(pattern, s, i + 1);
        }
      }
      RemoveAllAbsent(s[1..], pattern);
      assert [s[0]] + s[1..] == s;
    }
  }

  /** A leading occurrence is dropped and the rest is processed on its own. */
  lemma RemoveAllLeading(pattern: string, t: string)
    requires |pattern| > 0
    ensures RemoveAll(pattern + t, pattern) == RemoveAll(t, pattern)
  {
    assert (pattern + t)[..|pattern|] == pattern;
    assert (pattern + t)[|pattern|..] == t;
  }

  /** A text that lacks the first character of the pattern cannot contain it. */
  lemma AbsentFirstChar(pattern: string, s: string)
    requires |pattern| > 0
    requires pattern[0] !in s
    ensures !Occurs(pattern, s)
  {
    forall i ensures !OccursAt(pattern, s, i) {
      if 0 <= i && i + |pattern| <= |s| {
        assert s[i..i + |pattern|][0] == s[i];
      }
    }
  }
}

/**
 * The .NET string operations the SDK relies on: `string.Split(char)`,
 * `string.Join(string, ...)`, `string.TrimEnd(char)` and `string.IsNullOrEmpty`,
 * stated over `seq<char>`, with the facts about them that the SDK's query
 * building needs.
 */
module Strings {

  import opened Wrappers

  /** `s.Split(c)`: the pieces between occurrences of `c`, empty pieces included. */
  function Split(s: string, c: char): (r: seq<string>)
    ensures |r| >= 1
    decreases |s|
  {
    if s == [] then [""]
    else
      var rest := Split(s[1..], c);
      if s[0] == c then [""] + rest else [[s[0]] + rest[0]] + rest[1..]
  }

  /** `string.Join(sep, xs)`: the pieces with `sep` between consecutive ones. */
  function Join(xs: seq<string>, sep: string): string
    decreases |xs|
  {
    if xs == [] then ""
    else if |xs| == 1 then xs[0]
    else xs[0] + sep + Join(xs[1..], sep)
  }

  /** `s.TrimEnd(c)`: `s` without its trailing run of `c`. */
  function TrimEnd(s: string, c: char): (r: string)
    ensures |r| <= |s| && r == s[..|r|]
    ensures r == [] || r[|r| - 1] != c
    ensures forall k :: |r| <= k < |s| ==> s[k] == c
    decreases |s|
  {
    if s != [] && s[|s| - 1] == c then TrimEnd(s[..|s| - 1], c) else s
  }

  /** No piece of a split contains the separator. */
  lemma {:induction false} SplitPiecesAvoidSeparator(s: string, c: char)
    ensures forall k :: 0 <= k < |Split(s, c)| ==> c !in Split(s, c)[k]
    decreases |s|
  {
    if s != [] {
      SplitPiecesAvoidSeparator(s[1..], c);
    }
  }

  /** Joining the pieces of a split with the separator gives back the string. */
  lemma {:induction false} JoinSplit(s: string, c: char)
    ensures Join(Split(s, c), [c]) == s
    decreases |s|
  {
    if s != [] {
      var rest := Split(s[1..], c);
      JoinSplit(s[1..], c);
      if s[0] == c {
        assert Split(s, c) == [""] + rest;
        assert Join([""] + rest, [c]) == "" + [c] + Join(rest, [c]);
      } else {
        JoinHead(s[0], rest, [c]);
      }
    }
  }

  /** Prepending a character to the first piece prepends it to the join. */
  lemma JoinHead(ch: char, xs: seq<string>, sep: string)
    requires |xs| >= 1
    ensures Join([[ch] + xs[0]] + xs[1..], sep) == [ch] + Join(xs, sep)
  {
    var ys := [[ch] + xs[0]] + xs[1..];
    assert ys[1..] == xs[1..];
  }

  /** Splitting a join of separator-free pieces gives back the pieces. */
  lemma {:induction false} SplitJoin(xs: seq<string>, c: char)
    requires |xs| >= 1
    requires forall k :: 0 <= k < |xs| ==> c !in xs[k]
    ensures Split(Join(xs, [c]), c) == xs
    decreases |xs|, |xs[0]|
  {
    if xs[0] == [] {
      if |xs| == 1 {
        assert Join(xs, [c]) == "";
      } else {
        SplitJoin(xs[1..], c);
        assert Join(xs, [c]) == [c] + Join(xs[1..], [c]);
        assert Split(Join(xs, [c]), c) == [""] + xs[1..];
      }
    } else {
      var ch := xs[0][0];
      var ys := [xs[0][1..]] + xs[1..];
      assert ys[1..] == xs[1..];
      assert c !in ys[0];
      assert forall k :: 0 <= k < |ys| ==> c !in ys[k];
      SplitJoin(ys, c);
      JoinHead(ch, ys, [c]);
      assert [ch] + ys[0] == xs[0];
      assert [[ch] + ys[0]] + ys[1..] == xs;
      assert Join(xs, [c]) == [ch] + Join(ys, [c]);
      assert Split(Join(xs, [c]), c) == [[ch] + ys[0]] + ys[1..];
    }
  }

  /** A join of non-empty pieces ends with the last character of the last piece. */
  lemma {:induction false} JoinEndsWithLastPiece(xs: seq<string>, sep: string)
    requires |xs| >= 1 && xs[|xs| - 1] != []
    ensures var j := Join(xs, sep); |j| > 0 && j[|j| - 1] == xs[|xs| - 1][|xs[|xs| - 1]| - 1]
    decreases |xs|
  {
    if |xs| > 1 {
      JoinEndsWithLastPiece(xs[1..], sep);
    }
  }

  /** Joining one more piece appends the separator and the piece. */
  lemma {:induction false} JoinSnoc(xs: seq<string>, x: string, sep: string)
    ensures Join(xs + [x], sep) == if xs == [] then x else Join(xs, sep) + sep + x
    decreases |xs|
  {
    if |xs| > 1 {
      assert (xs + [x])[1..] == xs[1..] + [x];
      JoinSnoc(xs[1..], x, sep);
    } else if |xs| == 1 {
      assert (xs + [x])[1..] == [x];
    }
  }

  /** A split has one piece more than there are separators. */
  lemma {:induction false} SplitCount(s: string, c: char)
    ensures |Split(s, c)| == multiset(s)[c] + 1
    decreases |s|
  {
    if s != [] {
      SplitCount(s[1..], c);
      assert s == [s[0]] + s[1..];
      assert multiset(s) == multiset([s[0]]) + multiset(s[1..]);
    }
  }

  /** A string without the separator splits into itself alone. */
  lemma SplitAbsent(s: string, c: char)
    requires c !in s
    ensures Split(s, c) == [s]
  {
    SplitCount(s, c);
    assert c !in multiset(s);
    JoinSplit(s, c);
  }

  /** A join of pieces that each hold `c` once, with a separator free of `c`, holds `c` once per piece. */
  lemma {:induction false} JoinCountOnce(xs: seq<string>, sep: string, c: char)
    requires c !in sep
    requires forall k :: 0 <= k < |xs| ==> multiset(xs[k])[c] == 1
    ensures multiset(Join(xs, sep))[c] == |xs|
    decreases |xs|
  {
    if |xs| > 1 {
      var rest := Join(xs[1..], sep);
      JoinCountOnce(xs[1..], sep, c);
      assert Join(xs, sep) == xs[0] + sep + rest;
      assert multiset(sep)[c] == 0;
      assert multiset(xs[0] + sep + rest) == multiset(xs[0]) + multiset(sep) + multiset(rest);
    }
  }

  /** A character in neither the pieces nor the separator is not in their join. */
  lemma {:induction false} JoinAvoids(xs: seq<string>, sep: string, c: char)
    requires c !in sep
    requires forall k :: 0 <= k < |xs| ==> c !in xs[k]
    ensures c !in Join(xs, sep)
    decreases |xs|
  {
    if |xs| > 1 {
      JoinAvoids(xs[1..], sep, c);
      assert Join(xs, sep) == xs[0] + sep + Join(xs[1..], sep);
    }
  }

  /** `IsNullOrEmpty` for a string that may be null. */
  predicate IsNullOrEmpty(s: Option<string>)
  {
    s.None? || s.value == ""
  }
}

/** The three `str` operations the core relies on, over `seq<char>`:
    `split(" ")`, `join(" ")` on a `Vec<String>`, and `contains`. */
module Strings {

  /** The index of the first `c` in `s`. */
  function IndexOf(s: string, c: char): (i: nat)
    requires c in s
    ensures i < |s| && s[i] == c && c !in s[..i]
  {
    if s[0] == c then 0
    else
      assert s[1..][..IndexOf(s[1..], c)] == s[1..IndexOf(s[1..], c) + 1];
      1 + IndexOf(s[1..], c)
  }

  /** `s.split(" ")`: the pieces of `s` between single spaces. Two adjacent
      spaces, or a space at either end, produce an empty piece, and the
      empty string splits into one empty piece. */
  function Split(s: string): (r: seq<string>)
    ensures |r| == multiset(s)[' '] + 1
    ensures forall k :: 0 <= k < |r| ==> ' ' !in r[k]
    decreases |s|
  {
    if ' ' !in s then [s]
    else
      var i := IndexOf(s, ' ');
      assert s == s[..i] + [' '] + s[i + 1..];
      assert multiset(s) == multiset(s[..i]) + multiset([' ']) + multiset(s[i + 1..]);
      [s[..i]] + Split(s[i + 1..])
  }

  /** `pieces.join(sep)`: the pieces with `sep` between neighbours. */
  function Join(pieces: seq<string>, sep: string): (r: string)
    ensures |pieces| > 0 ==> pieces[0] <= r
  {
    if |pieces| == 0 then ""
    else if |pieces| == 1 then pieces[0]
    else pieces[0] + sep + Join(pieces[1..], sep)
  }

  /** `haystack.contains(needle)`: `needle` occurs somewhere in `haystack`. */
  predicate Contains(haystack: string, needle: string)
    ensures Contains(haystack, needle) ==> |needle| <= |haystack|
    decreases |haystack|
  {
    needle <= haystack || (|haystack| > 0 && Contains(haystack[1..], needle))
  }

  /** `needle` occurs in `haystack` starting at index `i`. */
  predicate OccursAt(haystack: string, needle: string, i: int)
  {
    0 <= i && i + |needle| <= |haystack| && haystack[i..i + |needle|] == needle
  }

  /** `Contains` is the substring test: some window of `haystack` is `needle`. */
  lemma {:induction false} ContainsIff(haystack: string, needle: string)
    ensures Contains(haystack, needle) <==> exists i :: OccursAt(haystack, needle, i)
  {
    if needle <= haystack {
      assert OccursAt(haystack, needle, 0);
    } else if |haystack| > 0 {
      var t := haystack[1..];
      ContainsIff(t, needle);
      if exists i :: OccursAt(t, needle, i) {
        var i :| OccursAt(t, needle, i);
        assert haystack[i + 1..i + 1 + |needle|] == t[i..i + |needle|];
        assert OccursAt(haystack, needle, i + 1);
      }
      if exists i :: OccursAt(haystack, needle, i) {
        var i :| OccursAt(haystack, needle, i);
        assert i != 0;
        assert t[i - 1..i - 1 + |needle|] == haystack[i..i + |needle|];
        assert OccursAt(t, needle, i - 1);
      }
    }
  }

  /** A piece without spaces is split off intact in front of the rest. */
  lemma SplitAfterPiece(x: string, t: string)
    requires ' ' !in x
    ensures Split(x + " " + t) == [x] + Split(t)
  {
    var s := x + " " + t;
    assert s[|x|] == ' ';
    var i := IndexOf(s, ' ');
    assert s[..|x|] == x;
    assert s[..i] == x;
    assert s[i + 1..] == t;
  }

  /** Joining the pieces of a split with a space gives the string back. */
  lemma {:induction false} JoinSplit(s: string)
    ensures Join(Split(s), " ") == s
    decreases |s|
  {
    if ' ' in s {
      var i := IndexOf(s, ' ');
      var rest := Split(s[i + 1..]);
      JoinSplit(s[i + 1..]);
      var r := [s[..i]] + rest;
      assert Split(s) == r;
      assert r[1..] == rest;
      assert Join(r, " ") == s[..i] + " " + Join(rest, " ");
      assert s == s[..i] + " " + s[i + 1..];
    }
  }

  /** Splitting a space-joined list of space-free pieces gives the pieces
      back; with `JoinSplit` this makes `Split` and `Join(_, " ")` inverse. */
  lemma {:induction false} SplitJoin(pieces: seq<string>)
    requires |pieces| >= 1
    requires forall k :: 0 <= k < |pieces| ==> ' ' !in pieces[k]
    ensures Split(Join(pieces, " ")) == pieces
  {
    if |pieces| > 1 {
      SplitJoin(pieces[1..]);
      assert Join(pieces, " ") == pieces[0] + " " + Join(pieces[1..], " ");
      SplitAfterPiece(pieces[0], Join(pieces[1..], " "));
      assert [pieces[0]] + pieces[1..] == pieces;
    }
  }
}

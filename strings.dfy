/**
 * The JavaScript string operations the core relies on: `indexOf`, `includes`,
 * `replace` with a string pattern, `split` and `join` with a string separator, and
 * lower-casing (restricted to ASCII letters).
 */
module Strings {
  import opened Common

  /** `pat` occurs in `s` starting at index `i`. */
  predicate OccursAt(s: string, pat: string, i: int) {
    0 <= i && i + |pat| <= |s| && s[i..i + |pat|] == pat
  }

  /** `i` is where `pat` first occurs in `s`. */
  predicate FirstAt(s: string, pat: string, i: int) {
    OccursAt(s, pat, i) && forall j :: 0 <= j < i ==> !OccursAt(s, pat, j)
  }

  /** The first index at or after `from` where `pat` occurs in `s`. */
  function IndexFrom(s: string, pat: string, from: nat): (r: Option<nat>)
    ensures r.Some? ==> from <= r.value && OccursAt(s, pat, r.value)
    ensures r.Some? ==> forall j :: from <= j < r.value ==> !OccursAt(s, pat, j)
    ensures r.None? ==> forall j :: from <= j ==> !OccursAt(s, pat, j)
    decreases |s| - from
  {
    if from + |pat| > |s| then None
    else if s[from..from + |pat|] == pat then Some(from)
    else IndexFrom(s, pat, from + 1)
  }

  /** `s.indexOf(pat)`, with `None` for -1: the first occurrence of `pat` in `s`. */
  function IndexOf(s: string, pat: string): (r: Option<nat>)
    ensures r.Some? ==> FirstAt(s, pat, r.value)
    ensures r.None? ==> forall j :: !OccursAt(s, pat, j)
  {
    IndexFrom(s, pat, 0)
  }

  /** `s.includes(pat)`. */
  predicate Includes(s: string, pat: string): (b: bool)
    ensures b <==> exists i :: OccursAt(s, pat, i)
  {
    IndexOf(s, pat).Some?
  }

  /** Every string includes the empty string. */
  lemma IncludesEmpty(s: string)
    ensures Includes(s, "")
  {
    assert OccursAt(s, "", 0);
  }

  /** A match at index `i` means the string includes the pattern. */
  lemma IncludesAt(s: string, pat: string, i: int)
    requires OccursAt(s, pat, i)
    ensures Includes(s, pat)
  {
  }

  /**
   * `s.replace(pat, rep)` with a string pattern: only the first occurrence is
   * replaced, and a string without one comes back unchanged.
   */
  function ReplaceFirst(s: string, pat: string, rep: string): (r: string)
    ensures !Includes(s, pat) ==> r == s
    ensures forall i :: FirstAt(s, pat, i) ==> r == s[..i] + rep + s[i + |pat|..]
  {
    match IndexOf(s, pat)
    case None => s
    case Some(i) => s[..i] + rep + s[i + |pat|..]
  }

  /** `xs.join(sep)`. */
  function Join(xs: seq<string>, sep: string): (r: string)
    ensures |xs| == 0 ==> r == ""
    ensures |xs| > 0 ==> |xs[0]| <= |r| && r[..|xs[0]|] == xs[0]
    ensures |xs| > 1 ==> OccursAt(r, sep, |xs[0]|)
  {
    if |xs| == 0 then ""
    else if |xs| == 1 then xs[0]
    else xs[0] + sep + Join(xs[1..], sep)
  }

  /**
   * `s.split(sep)` for a non-empty separator: the pieces between successive
   * non-overlapping occurrences, scanning left to right. There is always at least
   * one piece.
   */
  function Split(s: string, sep: string): (r: seq<string>)
    requires |sep| > 0
    ensures |r| >= 1
    decreases |s|
  {
    match IndexOf(s, sep)
    case None => [s]
    case Some(i) => [s[..i]] + Split(s[i + |sep|..], sep)
  }

  /** No piece that `split` produces contains the separator. */
  lemma {:induction false} SplitPieces(s: string, sep: string)
    requires |sep| > 0
    ensures forall p :: p in Split(s, sep) ==> !Includes(p, sep)
    decreases |s|
  {
    match IndexOf(s, sep)
    case None =>
    case Some(i) =>
      var head := s[..i];
      forall j ensures !OccursAt(head, sep, j) {
        if OccursAt(head, sep, j) {
          assert s[j..j + |sep|] == head[j..j + |sep|];
          assert OccursAt(s, sep, j);
        }
      }
      SplitPieces(s[i + |sep|..], sep);
  }

  /** A string is the concatenation of its three slices around two cut points. */
  lemma Reassemble(s: string, i: nat, j: nat)
    requires i <= j <= |s|
    ensures s == s[..i] + s[i..j] + s[j..]
  {
  }

  /** Joining a list with a head in front puts the head and one separator before the rest. */
  lemma JoinCons(x: string, xs: seq<string>, sep: string)
    requires |xs| > 0
    ensures Join([x] + xs, sep) == x + sep + Join(xs, sep)
  {
    assert ([x] + xs)[1..] == xs;
  }

  /** Splitting a string and joining the pieces with the same separator gives it back. */
  lemma {:induction false} JoinSplit(s: string, sep: string)
    requires |sep| > 0
    ensures Join(Split(s, sep), sep) == s
    decreases |s|
  {
    var r := IndexOf(s, sep);
    if r.Some? {
      var i := r.value;
      var tail := s[i + |sep|..];
      var pieces := Split(tail, sep);
      assert Join(pieces, sep) == tail by {
        JoinSplit(tail, sep);
      }
      assert s[i..i + |sep|] == sep && Split(s, sep) == [s[..i]] + pieces;
      JoinAround(s, sep, i, pieces);
    } else {
      assert Split(s, sep) == [s];
    }
  }

  /** Joining the text before a separator with the pieces of the text after it restores the whole. */
  lemma JoinAround(s: string, sep: string, i: nat, pieces: seq<string>)
    requires i + |sep| <= |s| && s[i..i + |sep|] == sep
    requires |pieces| > 0 && Join(pieces, sep) == s[i + |sep|..]
    ensures Join([s[..i]] + pieces, sep) == s
  {
    JoinCons(s[..i], pieces, sep);
    Reassemble(s, i, i + |sep|);
  }

  /**
   * When a separator never repeats its first character and `t` does not contain it,
   * the first occurrence of the separator in `t + sep + rest` is the one after `t`.
   */
  lemma SeparatorAfter(t: string, sep: string, rest: string)
    requires |sep| > 0 && forall k :: 1 <= k < |sep| ==> sep[k] != sep[0]
    requires !Includes(t, sep)
    ensures IndexOf(t + sep + rest, sep) == Some(|t|)
  {
    var s := t + sep + rest;
    assert s[|t|..|t| + |sep|] == sep;
    assert OccursAt(s, sep, |t|);
    forall j | 0 <= j < |t| ensures !OccursAt(s, sep, j) {
      if j + |sep| <= |t| {
        assert t[j..j + |sep|] == s[j..j + |sep|];
        assert !OccursAt(t, sep, j);
      } else {
        var k := |t| - j;
        assert s[j + k] == sep[0];
        assert sep[k] != sep[0];
      }
    }
  }

  /**
   * Joining a non-empty list whose items do not contain the separator and splitting
   * the result gives the list back (for a separator that never repeats its first
   * character).
   */
  lemma {:induction false} SplitJoin(xs: seq<string>, sep: string)
    requires |xs| > 0 && |sep| > 0 && forall k :: 1 <= k < |sep| ==> sep[k] != sep[0]
    requires forall x :: x in xs ==> !Includes(x, sep)
    ensures Split(Join(xs, sep), sep) == xs
  {
    if |xs| == 1 {
      assert xs[0] in xs;
      assert IndexOf(xs[0], sep).None?;
    } else {
      var rest := Join(xs[1..], sep);
      SeparatorAfter(xs[0], sep, rest);
      var s := xs[0] + sep + rest;
      assert s[|xs[0]| + |sep|..] == rest;
      assert s[..|xs[0]|] == xs[0];
      SplitJoin(xs[1..], sep);
      assert xs == [xs[0]] + xs[1..];
    }
  }

  /** Lower-casing of one character, restricted to the ASCII letters. */
  function LowerChar(c: char): char {
    if 'A' <= c <= 'Z' then (c as int + 32) as char else c
  }

  /** Lower-casing of a string, character by character. */
  function Lower(s: string): (r: string)
    ensures |r| == |s|
    ensures forall i :: 0 <= i < |s| ==> r[i] == LowerChar(s[i])
  {
    seq(|s|, i requires 0 <= i < |s| => LowerChar(s[i]))
  }
}

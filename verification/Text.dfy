/** The ASCII part of the string normalization that slugs, emails and claims go through. */
module Text {

  function LowerChar(c: char): (r: char)
    ensures 'A' <= c <= 'Z' ==> r as int - c as int == 32
    ensures !('A' <= c <= 'Z') ==> r == c
  {
    if 'A' <= c <= 'Z' then c - 'A' + 'a' else c
  }

  function Lower(s: string): (r: string)
    ensures |r| == |s|
    ensures forall i :: 0 <= i < |s| ==> r[i] == LowerChar(s[i])
  {
    if s == "" then "" else [LowerChar(s[0])] + Lower(s[1..])
  }

  const SPACE: set<char> := {' '}
  const WHITESPACE: set<char> := {' ', '\t', '\n', '\r', '\U{000B}', '\U{000C}'}

  function TrimLeft(s: string, cut: set<char>): string {
    if s != "" && s[0] in cut then TrimLeft(s[1..], cut) else s
  }

  function TrimRight(s: string, cut: set<char>): string {
    if s != "" && s[|s| - 1] in cut then TrimRight(s[..|s| - 1], cut) else s
  }

  function Trim(s: string, cut: set<char>): string {
    TrimRight(TrimLeft(s, cut), cut)
  }

  /** No character of `cut` at either end. */
  predicate Trimmed(s: string, cut: set<char>) {
    s == "" || (s[0] !in cut && s[|s| - 1] !in cut)
  }

  lemma TrimLeftStart(s: string, cut: set<char>)
    ensures TrimLeft(s, cut) == "" || TrimLeft(s, cut)[0] !in cut
  {
  }

  lemma TrimRightEnds(s: string, cut: set<char>)
    ensures TrimRight(s, cut) <= s
    ensures TrimRight(s, cut) == "" || TrimRight(s, cut)[|TrimRight(s, cut)| - 1] !in cut
  {
  }

  lemma TrimIsTrimmed(s: string, cut: set<char>)
    ensures Trimmed(Trim(s, cut), cut)
  {
    TrimLeftStart(s, cut);
    TrimRightEnds(TrimLeft(s, cut), cut);
  }

  predicate AllIn(s: string, cut: set<char>) {
    forall i :: 0 <= i < |s| ==> s[i] in cut
  }

  /** Trimming takes nothing but characters of `cut`, and only from the ends. */
  lemma {:induction false} TrimTakesEnds(s: string, cut: set<char>) returns (left: string, right: string)
    ensures s == left + Trim(s, cut) + right && AllIn(left, cut) && AllIn(right, cut)
  {
    left := TrimLeftTakes(s, cut);
    right := TrimRightTakes(TrimLeft(s, cut), cut);
  }

  lemma {:induction false} TrimLeftTakes(s: string, cut: set<char>) returns (left: string)
    ensures s == left + TrimLeft(s, cut) && AllIn(left, cut)
  {
    if s != "" && s[0] in cut {
      var rest := TrimLeftTakes(s[1..], cut);
      left := [s[0]] + rest;
    } else {
      left := "";
    }
  }

  lemma {:induction false} TrimRightTakes(s: string, cut: set<char>) returns (right: string)
    ensures s == TrimRight(s, cut) + right && AllIn(right, cut)
  {
    if s != "" && s[|s| - 1] in cut {
      var rest := TrimRightTakes(s[..|s| - 1], cut);
      right := rest + [s[|s| - 1]];
    } else {
      right := "";
    }
  }

  lemma {:induction false} TrimLeftPadded(left: string, s: string, cut: set<char>)
    requires AllIn(left, cut) && s != "" && s[0] !in cut
    ensures TrimLeft(left + s, cut) == s
  {
    if left == "" {
      assert left + s == s;
    } else {
      assert (left + s)[1..] == left[1..] + s;
      TrimLeftPadded(left[1..], s, cut);
    }
  }

  lemma {:induction false} TrimRightPadded(s: string, right: string, cut: set<char>)
    requires AllIn(right, cut) && s != "" && s[|s| - 1] !in cut
    ensures TrimRight(s + right, cut) == s
    decreases |right|
  {
    if right == "" {
      assert s + right == s;
    } else {
      var n := |right| - 1;
      assert (s + right)[..|s| + n] == s + right[..n];
      TrimRightPadded(s, right[..n], cut);
    }
  }

  /** Padding is taken off, whole. */
  lemma TrimPadded(left: string, s: string, right: string, cut: set<char>)
    requires AllIn(left, cut) && AllIn(right, cut) && s != "" && Trimmed(s, cut)
    ensures Trim(left + s + right, cut) == s
  {
    assert left + s + right == left + (s + right);
    TrimLeftPadded(left, s + right, cut);
    TrimRightPadded(s, right, cut);
  }

  lemma TrimmedStays(s: string, cut: set<char>)
    requires Trimmed(s, cut)
    ensures Trim(s, cut) == s
  {
  }

  lemma LowerStays(s: string)
    ensures Lower(Lower(s)) == Lower(s)
  {
  }
}

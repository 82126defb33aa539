/**
 * Text as a sequence of newline-terminated lines: splitting a string into its
 * lines, joining lines back into a string, and selecting lines by prefix.
 */
module Text {

  /** A complete line: non-empty, ends with a newline and contains no other. */
  predicate IsLine(l: string) {
    |l| > 0 && l[|l| - 1] == '\n' && '\n' !in l[..|l| - 1]
  }

  /**
   * Length of the first line of `s`, its newline included; the whole of `s`
   * when `s` contains no newline.
   */
  function FirstLineLength(s: string): (n: nat)
    requires s != []
    ensures 0 < n <= |s|
    ensures '\n' !in s[..n - 1]
    ensures s[n - 1] == '\n' || n == |s|
  {
    if s[0] == '\n' || |s| == 1 then 1
    else
      var m := FirstLineLength(s[1..]);
      assert s[..m] == [s[0]] + s[1..][..m - 1];
      1 + m
  }

  /** The lines of `s`, each keeping its newline; a final unterminated piece is a line too. */
  function SplitLines(s: string): (ls: seq<string>)
    decreases |s|
  {
    if s == [] then []
    else
      var n := FirstLineLength(s);
      [s[..n]] + SplitLines(s[n..])
  }

  /** The concatenation of `ls`. */
  function Join(ls: seq<string>): string {
    if ls == [] then "" else ls[0] + Join(ls[1..])
  }

  /** `l` starts with `p`. */
  predicate StartsWith(l: string, p: string) {
    |p| <= |l| && l[..|p|] == p
  }

  /** `l` ends with `q`. */
  predicate EndsWith(l: string, q: string) {
    |q| <= |l| && l[|l| - |q|..] == q
  }

  /** The lines of `ls` that start with `p`, in their order. */
  function LinesWithPrefix(ls: seq<string>, p: string): seq<string> {
    if ls == [] then []
    else (if StartsWith(ls[0], p) then [ls[0]] else []) + LinesWithPrefix(ls[1..], p)
  }

  /** A line followed by anything ends the first line exactly where the line ends. */
  lemma FirstLineOfLine(l: string, rest: string)
    requires IsLine(l)
    ensures FirstLineLength(l + rest) == |l|
  {
    var s := l + rest;
    var n := FirstLineLength(s);
    assert s[..|l|] == l;
    assert forall k :: 0 <= k < |l| - 1 ==> s[k] == l[..|l| - 1][k];
    assert forall k :: 0 <= k < n - 1 ==> s[k] == s[..n - 1][k];
  }

  /** Joining complete lines and splitting the result gives the lines back. */
  lemma {:induction false} SplitJoin(ls: seq<string>)
    requires AllLines(ls)
    ensures SplitLines(Join(ls)) == ls
  {
    if ls != [] {
      var s := Join(ls);
      FirstLineOfLine(ls[0], Join(ls[1..]));
      assert s[..|ls[0]|] == ls[0];
      assert s[|ls[0]|..] == Join(ls[1..]);
      SplitJoin(ls[1..]);
    }
  }

  /** Every element of the list is one complete line. */
  predicate AllLines(ls: seq<string>) {
    forall i :: 0 <= i < |ls| ==> IsLine(ls[i])
  }

  /** Two lists of complete lines concatenate to one. */
  lemma AllLinesAppend(a: seq<string>, b: seq<string>)
    requires AllLines(a) && AllLines(b)
    ensures AllLines(a + b)
  {
    forall i | 0 <= i < |a + b|
      ensures IsLine((a + b)[i])
    {
      if i < |a| { assert (a + b)[i] == a[i]; } else { assert (a + b)[i] == b[i - |a|]; }
    }
  }

  /** Joining distributes over concatenation of line lists. */
  lemma {:induction false} JoinAppend(a: seq<string>, b: seq<string>)
    ensures Join(a + b) == Join(a) + Join(b)
  {
    if a != [] {
      assert (a + b)[1..] == a[1..] + b;
      JoinAppend(a[1..], b);
    } else {
      assert a + b == b;
    }
  }

  /** Selecting lines by prefix distributes over concatenation. */
  lemma {:induction false} LinesWithPrefixAppend(a: seq<string>, b: seq<string>, p: string)
    ensures LinesWithPrefix(a + b, p) == LinesWithPrefix(a, p) + LinesWithPrefix(b, p)
  {
    if a != [] {
      assert (a + b)[1..] == a[1..] + b;
      LinesWithPrefixAppend(a[1..], b, p);
    } else {
      assert a + b == b;
    }
  }
}

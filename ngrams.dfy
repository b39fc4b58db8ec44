/** The n-gram windows ("states") that the scanner extracts from a corpus,
    one line at a time. */
module Ngrams {

  /** Number of offsets i in [0, len) with len >= i + n: the windows of width n
      taken from a line of length len. */
  function WindowCount(len: nat, n: nat): nat
  {
    if n == 0 then len else if len >= n then len - n + 1 else 0
  }

  /** The windows of one line from offset i on: every offset i <= j < |line|
      whose window line[j..j+n] still fits in the line, in order. */
  function LineStatesFrom(line: string, n: nat, i: nat): (r: seq<string>)
    requires i <= |line|
    ensures |r| == if WindowCount(|line|, n) > i then WindowCount(|line|, n) - i else 0
    ensures forall k :: 0 <= k < |r| ==> i + k + n <= |line| && r[k] == line[i + k..i + k + n]
    decreases |line| - i
  {
    if i == |line| then []
    else (if |line| >= i + n then [line[i..i + n]] else []) + LineStatesFrom(line, n, i + 1)
  }

  /** The windows of one line: offset k gives line[k..k+n], for every k at
      which the window fits; a line shorter than n gives none. */
  function LineStates(line: string, n: nat): (r: seq<string>)
    ensures |r| == WindowCount(|line|, n)
    ensures forall k :: 0 <= k < |r| ==> k + n <= |line| && r[k] == line[k..k + n]
  {
    LineStatesFrom(line, n, 0)
  }

  /** Sum over the lines of the number of windows each yields. */
  function TotalWindows(lines: seq<string>, n: nat): nat
  {
    if lines == [] then 0 else WindowCount(|lines[0]|, n) + TotalWindows(lines[1..], n)
  }

  /** All windows of a corpus, line after line; a window never spans two lines. */
  function States(lines: seq<string>, n: nat): (r: seq<string>)
    ensures |r| == TotalWindows(lines, n)
  {
    if lines == [] then [] else LineStates(lines[0], n) + States(lines[1..], n)
  }

  /** w is the window of width n at offset i of line. */
  predicate WindowAt(line: string, n: nat, i: nat, w: string)
  {
    i + n <= |line| && w == line[i..i + n]
  }

  /** Every window of a corpus has width n and lies inside a single line. */
  lemma {:induction false} StatesLieWithinLines(lines: seq<string>, n: nat, w: string)
    requires w in States(lines, n)
    ensures |w| == n
    ensures exists j, i :: 0 <= j < |lines| && WindowAt(lines[j], n, i, w)
  {
    var head := LineStates(lines[0], n);
    if w in head {
      var k :| 0 <= k < |head| && head[k] == w;
      assert WindowAt(lines[0], n, k, w);
    } else {
      assert w in States(lines[1..], n);
      StatesLieWithinLines(lines[1..], n, w);
      var j, i :| 0 <= j < |lines[1..]| && WindowAt(lines[1..][j], n, i, w);
      assert WindowAt(lines[j + 1], n, i, w);
    }
  }
}

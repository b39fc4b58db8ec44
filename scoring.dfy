/** What `scan` computes: the additive and multiplicative scores of a string
    against a probability table of window width n. */
module Scoring {
  import opened Ngrams

  /** Offset i contributes: its window fits strictly before the end of s
      (i + n < |s|) and is a key of the table. */
  predicate Counted(s: string, n: nat, table: map<string, real>, i: nat)
  {
    i + n < |s| && s[i..i + n] in table
  }

  /** What offset i adds to the additive accumulator. */
  function Contribution(s: string, n: nat, table: map<string, real>, i: nat): real
  {
    if Counted(s, n, table, i) then table[s[i..i + n]] else 0.0
  }

  /** The additive accumulator after the offsets 0 .. i-1. */
  function SumUpTo(s: string, n: nat, table: map<string, real>, i: nat): real
    requires i <= |s|
  {
    if i == 0 then 0.0 else SumUpTo(s, n, table, i - 1) + Contribution(s, n, table, i - 1)
  }

  /** The multiplicative accumulator after the offsets 0 .. i-1, started at seed. */
  function ProductUpTo(seed: real, s: string, n: nat, table: map<string, real>, i: nat): real
    requires i <= |s|
  {
    if i == 0 then seed
    else ProductUpTo(seed, s, n, table, i - 1) * (if Counted(s, n, table, i - 1) then table[s[i - 1..i - 1 + n]] else 1.0)
  }

  /** The additive score: the accumulated probabilities over the length of s. */
  function AdditiveScore(s: string, n: nat, table: map<string, real>): real
    requires |s| > 0
  {
    SumUpTo(s, n, table, |s|) / |s| as real
  }

  /** The multiplicative score: the product, seeded with 0, over the length of s. */
  function MultiplicativeScore(s: string, n: nat, table: map<string, real>): real
    requires |s| > 0
  {
    ProductUpTo(0.0, s, n, table, |s|) / |s| as real
  }

  /** Number of offsets i with i + n < |s|: those whose window can count. */
  function ScannedOffsets(len: nat, n: nat): nat
  {
    if n < len then len - n else 0
  }

  /** A product seeded with 0 stays 0, whatever it is multiplied by. */
  lemma {:induction false} ZeroSeedStaysZero(s: string, n: nat, table: map<string, real>, i: nat)
    requires i <= |s|
    ensures ProductUpTo(0.0, s, n, table, i) == 0.0
  {
    if i > 0 {
      ZeroSeedStaysZero(s, n, table, i - 1);
    }
  }

  /** The multiplicative score is always 0. */
  lemma MultiplicativeScoreIsZero(s: string, n: nat, table: map<string, real>)
    requires |s| > 0
    ensures MultiplicativeScore(s, n, table) == 0.0
  {
    ZeroSeedStaysZero(s, n, table, |s|);
  }

  /** Offsets from ScannedOffsets on add nothing: in particular the window at
      offset |s| - n, the last one that fits, is never counted. */
  lemma {:induction false} UnfitOffsetsAddNothing(s: string, n: nat, table: map<string, real>, i: nat)
    requires ScannedOffsets(|s|, n) <= i <= |s|
    ensures SumUpTo(s, n, table, i) == SumUpTo(s, n, table, ScannedOffsets(|s|, n))
  {
    if i > ScannedOffsets(|s|, n) {
      assert !Counted(s, n, table, i - 1);
      UnfitOffsetsAddNothing(s, n, table, i - 1);
    }
  }

  /** With probabilities in [0, 1], the accumulator after i offsets lies
      between 0 and the number of those offsets that can count. */
  lemma {:induction false} SumUpToBounds(s: string, n: nat, table: map<string, real>, i: nat)
    requires i <= |s|
    requires forall w :: w in table ==> 0.0 <= table[w] <= 1.0
    ensures 0.0 <= SumUpTo(s, n, table, i)
    ensures SumUpTo(s, n, table, i) <= (if i < ScannedOffsets(|s|, n) then i else ScannedOffsets(|s|, n)) as real
  {
    if i > 0 {
      SumUpToBounds(s, n, table, i - 1);
    }
  }

  /** With probabilities in [0, 1], the additive score lies in
      [0, (|s| - n) / |s|] when n < |s|, and is 0 when n >= |s|. */
  lemma AdditiveScoreBounds(s: string, n: nat, table: map<string, real>)
    requires |s| > 0
    requires forall w :: w in table ==> 0.0 <= table[w] <= 1.0
    ensures n < |s| ==> 0.0 <= AdditiveScore(s, n, table) <= (|s| - n) as real / |s| as real
    ensures n >= |s| ==> AdditiveScore(s, n, table) == 0.0
  {
    SumUpToBounds(s, n, table, |s|);
    var sum, len := SumUpTo(s, n, table, |s|), |s| as real;
    if n < |s| {
      DivisionMonotone(sum, (|s| - n) as real, len);
    } else {
      UnfitOffsetsAddNothing(s, n, table, |s|);
    }
  }

  lemma DivisionMonotone(a: real, b: real, d: real)
    requires d > 0.0 && 0.0 <= a <= b
    ensures 0.0 <= a / d <= b / d
  {
  }

  /** The probability a table gives a window, 0 when absent. */
  function Lookup(table: map<string, real>, w: string): real
  {
    if w in table then table[w] else 0.0
  }

  /** Sum of the looked-up probabilities of a sequence of windows. */
  function SumLookups(ws: seq<string>, table: map<string, real>): real
  {
    if ws == [] then 0.0 else SumLookups(ws[..|ws| - 1], table) + Lookup(table, ws[|ws| - 1])
  }

  lemma {:induction false} SumUpToIsSumLookups(s: string, n: nat, table: map<string, real>, ws: seq<string>, i: nat)
    requires i <= |ws| && |ws| == ScannedOffsets(|s|, n)
    requires forall k :: 0 <= k < |ws| ==> k + n <= |s| && ws[k] == s[k..k + n]
    ensures SumUpTo(s, n, table, i) == SumLookups(ws[..i], table)
  {
    if i > 0 {
      SumUpToIsSumLookups(s, n, table, ws, i - 1);
      assert ws[..i][..i - 1] == ws[..i - 1];
      assert Contribution(s, n, table, i - 1) == Lookup(table, ws[i - 1]);
    }
  }

  /** For n >= 1, the windows scan can count are exactly the windows that
      model building extracts from s without its last character: building
      accepts offset i when i + n <= |line|, scanning only when i + n < |s|. */
  lemma ScanSeesBuildWindowsOfPrefix(s: string, n: nat, table: map<string, real>)
    requires |s| > 0 && n >= 1
    ensures SumUpTo(s, n, table, |s|) == SumLookups(LineStates(s[..|s| - 1], n), table)
  {
    var ws := LineStates(s[..|s| - 1], n);
    assert |ws| == ScannedOffsets(|s|, n);
    forall k | 0 <= k < |ws| ensures k + n <= |s| && ws[k] == s[k..k + n] {
      assert ws[k] == s[..|s| - 1][k..k + n];
    }
    SumUpToIsSumLookups(s, n, table, ws, |ws|);
    assert ws[..|ws|] == ws;
    UnfitOffsetsAddNothing(s, n, table, |s|);
  }
}

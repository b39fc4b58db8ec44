/** The frequency table that model building fills with window counts, and the
    probability table obtained by dividing every count by the total. */
module FrequencyTable {

  /** The count of every distinct window: its number of occurrences. */
  function Occurrences(states: seq<string>): (r: map<string, nat>)
    ensures forall w :: w in r <==> w in states
    ensures forall w :: w in r ==> 1 <= r[w] == multiset(states)[w] <= |states|
  {
    map w | w in multiset(states) :: multiset(states)[w]
  }

  /** ks lists every key of the set exactly once, in some order (the index of
      a table). */
  predicate Enumerates(ks: seq<string>, keys: set<string>)
  {
    multiset(ks) == multiset(keys)
  }

  /** Sum of the counts of the keys ks, in the order listed. */
  function SumCounts(ks: seq<string>, counts: map<string, nat>): nat
    requires forall k :: k in ks ==> k in counts
  {
    if ks == [] then 0 else counts[ks[0]] + SumCounts(ks[1..], counts)
  }

  /** Sum of the probabilities of the keys ks, in the order listed. */
  function SumProbabilities(ks: seq<string>, table: map<string, real>): real
    requires forall k :: k in ks ==> k in table
  {
    if ks == [] then 0.0 else table[ks[0]] + SumProbabilities(ks[1..], table)
  }

  /** Every count divided by the total. */
  function Normalise(counts: map<string, nat>, total: nat): (r: map<string, real>)
    requires counts != map[] ==> total > 0
    ensures r.Keys == counts.Keys
  {
    map w | w in counts :: counts[w] as real / total as real
  }

  /** The probability table built from a sequence of windows. */
  function Table(states: seq<string>): (r: map<string, real>)
    ensures forall w :: w in r <==> w in states
  {
    Normalise(Occurrences(states), |states|)
  }

  /** Counting one more window: its count goes up by one, or it enters the
      table with count 1. */
  lemma OccurrencesStep(states: seq<string>, w: string)
    ensures Occurrences(states + [w]) ==
      if w in Occurrences(states) then Occurrences(states)[w := Occurrences(states)[w] + 1]
      else Occurrences(states)[w := 1]
  {
    assert multiset(states + [w]) == multiset(states) + multiset{w};
  }

  /** Appending a new key to a listing lists the enlarged key set. */
  lemma EnumeratesStep(ks: seq<string>, keys: set<string>, w: string)
    requires Enumerates(ks, keys) && w !in keys
    ensures Enumerates(ks + [w], keys + {w})
  {
    assert multiset(keys + {w}) == multiset(keys) + multiset{w};
  }

  /** One step of the counting loop keeps the table equal to the occurrences
      of the windows seen so far and the index a listing of its keys. */
  lemma CountOneMore(seen: seq<string>, index: seq<string>, counts: map<string, nat>, w: string)
    requires counts == Occurrences(seen) && Enumerates(index, counts.Keys)
    ensures w in counts ==> counts[w := counts[w] + 1] == Occurrences(seen + [w])
    ensures w !in counts ==> counts[w := 1] == Occurrences(seen + [w])
    ensures w !in counts ==> Enumerates(index + [w], counts[w := 1].Keys)
  {
    OccurrencesStep(seen, w);
    if w !in counts {
      EnumeratesStep(index, counts.Keys, w);
      assert counts[w := 1].Keys == counts.Keys + {w};
    }
  }

  /** Sum over ks of the multiplicities in m. */
  ghost function SumMultiplicities(ks: seq<string>, m: multiset<string>): nat
  {
    if ks == [] then 0 else m[ks[0]] + SumMultiplicities(ks[1..], m)
  }

  lemma {:induction false} SumCountsAsMultiplicities(ks: seq<string>, states: seq<string>)
    requires forall k :: k in ks ==> k in states
    ensures SumCounts(ks, Occurrences(states)) == SumMultiplicities(ks, multiset(states))
  {
    if ks != [] {
      SumCountsAsMultiplicities(ks[1..], states);
    }
  }

  lemma {:induction false} SumMultiplicitiesEmpty(ks: seq<string>)
    ensures SumMultiplicities(ks, multiset{}) == 0
  {
    if ks != [] {
      SumMultiplicitiesEmpty(ks[1..]);
    }
  }

  /** Adding one occurrence of x adds the number of times ks lists x. */
  lemma {:induction false} SumMultiplicitiesAdd(ks: seq<string>, m: multiset<string>, x: string)
    ensures SumMultiplicities(ks, m + multiset{x}) == SumMultiplicities(ks, m) + multiset(ks)[x]
  {
    if ks != [] {
      SumMultiplicitiesAdd(ks[1..], m, x);
      assert ks == [ks[0]] + ks[1..];
      assert multiset(ks) == multiset{ks[0]} + multiset(ks[1..]);
    }
  }

  /** When ks lists every window once, the multiplicities add up to the
      number of windows. */
  lemma {:induction false} SumMultiplicitiesAll(ks: seq<string>, states: seq<string>)
    requires forall x :: x in states ==> multiset(ks)[x] == 1
    ensures SumMultiplicities(ks, multiset(states)) == |states|
  {
    if states == [] {
      SumMultiplicitiesEmpty(ks);
    } else {
      var p, x := states[..|states| - 1], states[|states| - 1];
      assert states == p + [x];
      SumMultiplicitiesAll(ks, p);
      SumMultiplicitiesAdd(ks, multiset(p), x);
    }
  }

  /** The total of the counts, summed over any listing of the distinct
      windows, is the number of windows. */
  lemma SumOccurrences(ks: seq<string>, states: seq<string>)
    requires Enumerates(ks, Occurrences(states).Keys)
    ensures forall k :: k in ks ==> k in Occurrences(states)
    ensures SumCounts(ks, Occurrences(states)) == |states|
  {
    var keys := Occurrences(states).Keys;
    forall k | k in ks ensures k in keys {
      assert multiset(ks)[k] > 0;
    }
    forall x | x in states ensures multiset(ks)[x] == 1 {
      assert x in keys;
    }
    SumCountsAsMultiplicities(ks, states);
    SumMultiplicitiesAll(ks, states);
  }

  /** Summing normalised counts is normalising the summed counts. */
  lemma {:induction false} SumNormalised(ks: seq<string>, counts: map<string, nat>, total: nat)
    requires total > 0
    requires forall k :: k in ks ==> k in counts
    ensures SumProbabilities(ks, Normalise(counts, total)) == SumCounts(ks, counts) as real / total as real
  {
    if ks != [] {
      SumNormalised(ks[1..], counts, total);
      var head, rest := counts[ks[0]] as real, SumCounts(ks[1..], counts) as real;
      assert Normalise(counts, total)[ks[0]] == head / total as real;
      DivisionDistributes(head, rest, total as real);
    }
  }

  lemma DivisionDistributes(a: real, b: real, d: real)
    requires d > 0.0
    ensures a / d + b / d == (a + b) / d
  {
  }

  lemma DivisionBySelf(d: real)
    requires d > 0.0
    ensures d / d == 1.0
  {
  }

  /** Every probability of the table is the window's share of all windows,
      and lies in (0, 1]. */
  lemma TableProbability(states: seq<string>, w: string)
    requires w in states
    ensures w in Table(states)
    ensures Table(states)[w] == multiset(states)[w] as real / |states| as real
    ensures 0.0 < Table(states)[w] <= 1.0
  {
  }

  /** The table is empty exactly when no window was extracted. */
  lemma TableEmpty(states: seq<string>)
    ensures Table(states) == map[] <==> states == []
  {
    if states != [] {
      assert states[0] in Table(states);
    }
  }

  /** When at least one window was extracted, the probabilities of the table,
      summed over any listing of its keys, add up to 1. */
  lemma TableSumsToOne(states: seq<string>, ks: seq<string>)
    requires states != []
    requires Enumerates(ks, Table(states).Keys)
    ensures forall k :: k in ks ==> k in Table(states)
    ensures SumProbabilities(ks, Table(states)) == 1.0
  {
    var counts, total := Occurrences(states), |states|;
    assert Table(states) == Normalise(counts, total);
    assert Table(states).Keys == counts.Keys;
    SumOccurrences(ks, states);
    SumNormalised(ks, counts, total);
    assert SumCounts(ks, counts) == total;
    DivisionBySelf(total as real);
  }
}

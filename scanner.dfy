/** The scanner object: it builds or loads a model, saves it, and scans
    strings against it. */
module Scanner {
  import opened Outcomes
  import opened Ngrams
  import opened FrequencyTable
  import opened Scoring

  /** The model dictionary: the window width, the probability table and,
      once saved, the path it was saved under. */
  datatype Model = Model(stateSize: nat, table: map<string, real>, name: Option<string>)

  /** pat occurs in s at offset i. */
  predicate OccursAt(s: string, pat: string, i: nat)
  {
    i + |pat| <= |s| && s[i..i + |pat|] == pat
  }

  /** s contains pat at some offset (Python's `pat in s` on strings). */
  function Contains(s: string, pat: string): (r: bool)
    ensures r <==> exists i :: OccursAt(s, pat, i)
    decreases |s|
  {
    if |s| < |pat| then false
    else if s[..|pat|] == pat then assert OccursAt(s, pat, 0); true
    else
      assert forall i: nat :: OccursAt(s[1..], pat, i) <==> OccursAt(s, pat, i + 1) by {
        forall i: nat ensures OccursAt(s[1..], pat, i) <==> OccursAt(s, pat, i + 1) {
          if i + 1 + |pat| <= |s| {
            assert s[1..][i..i + |pat|] == s[i + 1..i + 1 + |pat|];
          }
        }
      }
      assert !OccursAt(s, pat, 0);
      assert (exists i :: OccursAt(s, pat, i)) ==> exists i :: OccursAt(s[1..], pat, i) by {
        if i: nat :| OccursAt(s, pat, i) {
          assert OccursAt(s[1..], pat, i - 1);
        }
      }
      Contains(s[1..], pat)
  }

  /** The extension check: a path passes exactly when ".tm" occurs in it. */
  function CheckTmExtension(path: string): (o: Outcome)
    ensures o.Pass? <==> exists i :: OccursAt(path, ".tm", i)
    ensures o.Fail? ==> o.error == WrongExtension
  {
    if Contains(path, ".tm") then Pass else Fail(WrongExtension)
  }

  /** Counts every window into a frequency table, one window at a time; the
      index lists each distinct window once (its order is not stated). */
  method CountStates(states: seq<string>) returns (index: seq<string>, counts: map<string, nat>)
    ensures counts == Occurrences(states)
    ensures forall w :: w in counts <==> w in states
    ensures forall w :: w in counts ==> counts[w] == multiset(states)[w]
    ensures Enumerates(index, counts.Keys)
  {
    index, counts := [], map[];
    for i := 0 to |states|
      invariant counts == Occurrences(states[..i])
      invariant Enumerates(index, counts.Keys)
    {
      var state := states[i];
      assert states[..i + 1] == states[..i] + [state];
      CountOneMore(states[..i], index, counts, state);
      if state in counts {
        counts := counts[state := counts[state] + 1];
      } else {
        counts := counts[state := 1];
        index := index + [state];
      }
    }
    assert states[..|states|] == states;
  }

  class GibberishScanner {
    var model: Option<Model>
    var isModelBuilt: bool
    var isModelLoaded: bool

    /** A model is present exactly when one was built or loaded. */
    ghost predicate Valid()
      reads this
    {
      model.Some? <==> isModelBuilt || isModelLoaded
    }

    constructor ()
      ensures Valid()
      ensures model == None && !isModelBuilt && !isModelLoaded
    {
      model := None;
      isModelBuilt := false;
      isModelLoaded := false;
    }

    /** Builds the model from the lines of a corpus: counts every window,
        divides by the total and stores the table with its width. */
    method BuildModel(corpus: seq<string>, stateSize: nat := 2)
      modifies this`model, this`isModelBuilt
      ensures Valid()
      ensures model == Some(Model(stateSize, Table(States(corpus, stateSize)), None))
      ensures isModelBuilt && isModelLoaded == old(isModelLoaded)
    {
      var states := States(corpus, stateSize);
      var index, counts := CountStates(states);
      SumOccurrences(index, states);
      var total := SumCounts(index, counts);
      assert total == |states|;
      var table := Normalise(counts, total);
      model := Some(Model(stateSize, table, None));
      isModelBuilt := true;
    }

    /** Installs a parsed model file: its width and table (any stored name is
        dropped), after the extension check. */
    method LoadModel(path: string, stored: Model) returns (o: Outcome)
      modifies this`model, this`isModelLoaded
      ensures o == CheckTmExtension(path)
      ensures o.Pass? ==> model == Some(Model(stored.stateSize, stored.table, None)) && isModelLoaded
      ensures o.Fail? ==> model == old(model) && isModelLoaded == old(isModelLoaded)
      ensures old(Valid()) || o.Pass? ==> Valid()
    {
      o := CheckTmExtension(path);
      if o.Fail? {
        return;
      }
      model := Some(Model(stored.stateSize, stored.table, None));
      isModelLoaded := true;
    }

    /** The save guard, as written: it fails only when no model was built
        but one was loaded. */
    function CheckModelLoadedOrBuilt(): (o: Outcome)
      reads this
      ensures o.Fail? <==> !isModelBuilt && isModelLoaded
      ensures o.Fail? ==> o.error == ModelNotExist
    {
      if !isModelBuilt && isModelLoaded then Fail(ModelNotExist) else Pass
    }

    /** Saves the model under name: the save guard, then the extension check,
        then the name is stamped onto the model, which is what gets written. */
    method SaveModel(name: string) returns (r: Result<Model>)
      modifies this`model
      ensures old(CheckModelLoadedOrBuilt()).Fail? ==> r == Err(ModelNotExist)
      ensures old(CheckModelLoadedOrBuilt()).Pass? && CheckTmExtension(name).Fail? ==> r == Err(WrongExtension)
      ensures old(CheckModelLoadedOrBuilt()).Pass? && CheckTmExtension(name).Pass? && old(model).None? ==> r == Err(NoModel)
      ensures r.Ok? <==> old(CheckModelLoadedOrBuilt()).Pass? && CheckTmExtension(name).Pass? && old(model).Some?
      ensures r.Ok? ==> model == Some(old(model).value.(name := Some(name))) && r.value == model.value
      ensures r.Err? ==> model == old(model)
      ensures old(Valid()) ==> Valid()
      ensures old(Valid()) && CheckTmExtension(name).Pass? ==> (r.Ok? <==> isModelBuilt)
    {
      var guard := CheckModelLoadedOrBuilt();
      if guard.Fail? {
        return Err(guard.error);
      }
      var extension := CheckTmExtension(name);
      if extension.Fail? {
        return Err(extension.error);
      }
      if model.None? {
        return Err(NoModel);
      }
      model := Some(model.value.(name := Some(name)));
      r := Ok(model.value);
    }

    /** Scans s: walks every offset, adds the probability of each counted
        window to the additive accumulator and multiplies it into the
        multiplicative one, then divides both by |s|. */
    method Scan(s: string) returns (r: Result<(real, real)>)
      requires |s| > 0
      ensures model.None? ==> r == Err(NoModel)
      ensures model.Some? ==> r.Ok?
      ensures r.Ok? ==> model.Some?
      ensures r.Ok? ==> r.value.0 == AdditiveScore(s, model.value.stateSize, model.value.table)
      ensures r.Ok? ==> r.value.1 == MultiplicativeScore(s, model.value.stateSize, model.value.table) == 0.0
    {
      if model.None? {
        return Err(NoModel);
      }
      var n, table := model.value.stateSize, model.value.table;
      var additive, multiplicative := 0.0, 0.0;
      for i := 0 to |s|
        invariant additive == SumUpTo(s, n, table, i)
        invariant multiplicative == ProductUpTo(0.0, s, n, table, i)
      {
        if i + n < |s| && s[i..i + n] in table {
          var proba := table[s[i..i + n]];
          additive := additive + proba;
          multiplicative := multiplicative * proba;
        }
      }
      MultiplicativeScoreIsZero(s, n, table);
      r := Ok((additive / |s| as real, multiplicative / |s| as real));
    }
  }

  /** Saving a built model and loading the saved model into a fresh scanner
      reproduces its width and table, assuming the file parses back to the
      model that was written. */
  method SaveThenLoad(source: GibberishScanner, path: string) returns (target: GibberishScanner)
    requires source.model.Some? && source.isModelBuilt
    requires CheckTmExtension(path).Pass?
    modifies source`model
    ensures fresh(target) && target.isModelLoaded && !target.isModelBuilt
    ensures target.model == Some(Model(old(source.model).value.stateSize, old(source.model).value.table, None))
  {
    var saved := source.SaveModel(path);
    target := new GibberishScanner();
    var loaded := target.LoadModel(path, saved.value);
  }

  /** Every key of a built table is a window of width n of a single corpus
      line. */
  lemma BuiltKeysAreLineWindows(corpus: seq<string>, n: nat)
    ensures forall w :: w in Table(States(corpus, n)) ==>
      |w| == n && exists j, i :: 0 <= j < |corpus| && WindowAt(corpus[j], n, i, w)
  {
    forall w | w in Table(States(corpus, n))
      ensures |w| == n && exists j, i :: 0 <= j < |corpus| && WindowAt(corpus[j], n, i, w)
    {
      StatesLieWithinLines(corpus, n, w);
    }
  }

  /** A line "aabaa\n" with width 2 yields "aa", "ab", "ba", "aa" and "a\n":
      the line terminator is part of the line. */
  lemma ExampleWindows()
    ensures States(["aabaa\n"], 2) == ["aa", "ab", "ba", "aa", "a\n"]
  {
    var line := "aabaa\n";
    var ws := LineStates(line, 2);
    assert |ws| == 5;
    assert ws[0] == line[0..2] == "aa" && ws[1] == line[1..3] == "ab" && ws[2] == line[2..4] == "ba";
    assert ws[3] == line[3..5] == "aa" && ws[4] == line[4..6] == "a\n";
    assert States([line], 2) == ws + States([], 2);
  }

  /** Those windows give "aa" the probability 2/5 and every other window 1/5. */
  lemma ExampleTable(w: string)
    ensures w in Table(["aa", "ab", "ba", "aa", "a\n"]) <==> w in {"aa", "ab", "ba", "a\n"}
    ensures w == "aa" ==> Table(["aa", "ab", "ba", "aa", "a\n"])[w] == 0.4
    ensures w in {"ab", "ba", "a\n"} ==> Table(["aa", "ab", "ba", "aa", "a\n"])[w] == 0.2
  {
    var states := ["aa", "ab", "ba", "aa", "a\n"];
    if w in states {
      TableProbability(states, w);
      var m := multiset(states);
      assert m["aa"] == 2 && m["ab"] == 1 && m["ba"] == 1 && m["a\n"] == 1;
    }
  }

  /** Against the table {"aa": 0.5, "ab": 0.25, "ba": 0.25}, "aaba" counts
      only offsets 0 and 1 (i + 2 < 4): (0.5 + 0.25) / 4. */
  lemma ScanExample()
    ensures AdditiveScore("aaba", 2, map["aa" := 0.5, "ab" := 0.25, "ba" := 0.25]) == 0.1875
  {
    var table := map["aa" := 0.5, "ab" := 0.25, "ba" := 0.25];
    assert "aaba"[0..2] == "aa" && "aaba"[1..3] == "ab";
    assert SumUpTo("aaba", 2, table, 4) == 0.75;
  }
}

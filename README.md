# Gibberish scanner: a Dafny model

This project models `GibberishScanner`, the class at the core of the `pygibberish`
package (`src/pygibberish/scanner.py`). The scanner does three things:

- It builds a character n-gram model from a corpus. Every line is cut into windows of
  width `state_size`. The windows are counted into a frequency table, and each count is
  divided by the total.
- It installs such a model from a `.tm` file, or stamps a name on the current model when
  it is saved.
- It scans a string. It walks every offset and adds the probability of each window that
  is in the table. It returns an additive score and a multiplicative score, both divided
  by the length of the string.

Module layout (one module per concern of the source file):

- `outcomes.dfy` — `Outcomes`: the exceptions the scanner raises, as values
  (`WrongExtension` for the `ValueError` of the `.tm` check, `ModelNotExist` for the save
  guard, `NoModel` for the `TypeError` of subscripting a model that is `None`).
- `ngrams.dfy` — `Ngrams`: `_get_states`, the windows of a line and of a corpus.
- `frequency_table.dfy` — `FrequencyTable`: window counts, normalisation and the
  probability table, with the lemmas about them.
- `scoring.dfy` — `Scoring`: the two accumulators of `scan`, and the lemmas about the
  scores.
- `scanner.dfy` — `Scanner`: the class `GibberishScanner`, with its fields `model`,
  `isModelBuilt` and `isModelLoaded`, the counting loop, the two guards, save, load and
  scan.

Probabilities are `real`, so normalisation is exact. The table is a `map<string, real>`.
A map has no order, so sums over a table are taken over a key listing `ks`, with
`multiset(ks) == multiset(table.Keys)` (each key listed once, in any order; the pandas
index built by the counting loop is one such listing).

## Behaviour kept as written

- Building keeps offset `i` when `len(line) >= i + state_size`; scanning keeps it only when
  `i + state_size < len(string)`. So the last window that fits in the scanned string is
  never counted. `Scoring.ScanSeesBuildWindowsOfPrefix` states the exact relation: for
  `n >= 1`, scanning `s` sees the build windows of `s` without its last character.
- The multiplicative accumulator starts at `0` and is only ever multiplied, so the
  multiplicative score is always `0`. The example script's recorded output shows `0.0`.
- The save guard raises only when no model was built but one was loaded. A scanner that
  was only loaded therefore cannot be saved. A fresh scanner passes the guard and the
  `.tm` check, and then fails with a `TypeError` when `None["name"]` is assigned.
  `SaveModel` returns `Err(NoModel)` for that case.
- The line terminator belongs to the line. A corpus line `"aabaa\n"` with width 2 yields
  `"aa"`, `"ab"`, `"ba"`, `"aa"` and `"a\n"`.
- `load_model` keeps only `state_size` and `transition_matrix`. A name stored in the file
  is dropped.
- In the source, a built model stores its table as a plain `dict`, while a loaded model
  stores a pandas DataFrame. `scan` calls `.index` and `.loc`, which only the DataFrame has.
  `save_model` passes the model to `json.dump`, which only the `dict` passes. So in the
  source, `scan` works only on a loaded model and `save_model` writes only a built model.
  Here both are one `map`.

## Model

| member | source | states |
|---|---|---|
| `Ngrams.LineStatesFrom` | src/pygibberish/scanner.py:115-118 | from offset i, one window per offset j < len(line) with j + n <= len(line): the count is WindowCount(len, n) minus i (none once i reaches it), and the k-th window is line[i+k..i+k+n] |
| `Ngrams.LineStates` | src/pygibberish/scanner.py:114-118 | a line yields WindowCount(len, n) windows (len - n + 1 when it fits, none when the line is shorter than n); the k-th window is line[k..k+n], so every window has width n and the windows come in order |
| `Ngrams.States` | src/pygibberish/scanner.py:112-118 | the windows of the corpus are the lines' windows, line after line; their number is the sum over lines of the per-line count |
| `Ngrams.StatesLieWithinLines` | src/pygibberish/scanner.py:114-118 | every extracted window has width n and equals line[i..i+n] for a single line: no window spans two lines |
| `FrequencyTable.Occurrences` | src/pygibberish/scanner.py:187-192 | the counts table has a key exactly for each window seen, and each count is the window's number of occurrences (between 1 and the number of windows) |
| `FrequencyTable.OccurrencesStep` | src/pygibberish/scanner.py:189-192 | counting one more window raises its count by one if it is present, and adds it with count 1 otherwise |
| `FrequencyTable.CountOneMore` | src/pygibberish/scanner.py:188-192 | one step of the counting loop keeps the table equal to the occurrences of the windows seen so far, and keeps the index a listing of its keys |
| `Scanner.CountStates` | src/pygibberish/scanner.py:187-192 | the counting loop: afterwards the keys are exactly the windows, each count is the window's number of occurrences, and the index lists each key once |
| `FrequencyTable.SumOccurrences` | src/pygibberish/scanner.py:195 | the total of the counts, summed over any listing of the keys, is the number of windows extracted |
| `FrequencyTable.Normalise` | src/pygibberish/scanner.py:195 | normalisation keeps exactly the keys of the counts table |
| `FrequencyTable.SumNormalised` | src/pygibberish/scanner.py:195 | the sum of the normalised entries is the sum of the counts divided by the total |
| `FrequencyTable.Table` | src/pygibberish/scanner.py:187-200 | the keys of the built table are exactly the distinct extracted windows |
| `FrequencyTable.TableProbability` | src/pygibberish/scanner.py:195 | each stored probability is the window's count divided by the total, and lies in (0, 1] |
| `FrequencyTable.TableEmpty` | src/pygibberish/scanner.py:187-200 | the table is empty exactly when no window was extracted |
| `FrequencyTable.TableSumsToOne` | src/pygibberish/scanner.py:195-200 | when at least one window was extracted, the probabilities summed over any listing of the keys equal 1 |
| `Scanner.BuiltKeysAreLineWindows` | src/pygibberish/scanner.py:188-200 | every key of a built table has width state_size and is a window of one corpus line |
| `Scanner.ExampleWindows` | src/pygibberish/scanner.py:114-118 | the line "aabaa\n" with width 2 yields "aa", "ab", "ba", "aa", "a\n" |
| `Scanner.ExampleTable` | src/pygibberish/scanner.py:187-200 | those windows give the table {"aa": 0.4, "ab": 0.2, "ba": 0.2, "a\n": 0.2} |
| `Scanner.GibberishScanner.constructor` | src/pygibberish/scanner.py:70-78 | a new scanner has no model and neither flag set |
| `Scanner.GibberishScanner.BuildModel` | src/pygibberish/scanner.py:153-203 | the width defaults to 2, as in the source; the model becomes the state size with the table of the corpus windows and no name; is_model_built becomes true; is_model_loaded is unchanged |
| `Scanner.Contains` | src/pygibberish/scanner.py:215 | Python's substring test: true exactly when pat occurs in s at some offset |
| `Scanner.CheckTmExtension` | src/pygibberish/scanner.py:205-217 | the extension check passes exactly when ".tm" occurs in the path, and otherwise fails with the extension error |
| `Scanner.GibberishScanner.LoadModel` | src/pygibberish/scanner.py:120-151 | the extension check runs first; on failure nothing changes; on success the model becomes the parsed state size and table with no name, is_model_loaded becomes true, and is_model_built is unchanged |
| `Scanner.GibberishScanner.CheckModelLoadedOrBuilt` | src/pygibberish/scanner.py:219-225 | the save guard fails, with ModelNotExist, exactly when the model was not built but was loaded |
| `Scanner.GibberishScanner.SaveModel` | src/pygibberish/scanner.py:227-244 | save guard first, then extension check, then a missing model fails; the result succeeds exactly when all three pass; on success only the name is stamped on the model (state size and table unchanged) and the stamped model is what is written; on failure nothing changes; with a '.tm' name, a scanner whose model is present exactly when built or loaded saves exactly when it was built |
| `Scanner.SaveThenLoad` | src/pygibberish/scanner.py:240-244 | saving a built model and loading it into a fresh scanner gives the same state size and table, assuming the file parses back to the model that was written |
| `Scanner.GibberishScanner.Scan` | src/pygibberish/scanner.py:246-295 | with no model the result is the NoModel error; otherwise the additive score is the accumulated probability of the counted windows over the length, and the multiplicative score is the zero-seeded product over the length, which is 0 |
| `Scoring.ZeroSeedStaysZero` | src/pygibberish/scanner.py:277-288 | a product seeded with 0 stays 0 through any number of offsets |
| `Scoring.MultiplicativeScoreIsZero` | src/pygibberish/scanner.py:277-293 | the multiplicative score is 0 for every string and table |
| `Scoring.UnfitOffsetsAddNothing` | src/pygibberish/scanner.py:281-288 | offsets i with i + n >= len(s) add nothing, so the window at offset len(s) - n is never counted |
| `Scoring.SumUpToBounds` | src/pygibberish/scanner.py:281-288 | with probabilities in [0, 1], the additive accumulator after i offsets lies between 0 and the number of those offsets that can count |
| `Scoring.AdditiveScoreBounds` | src/pygibberish/scanner.py:281-292 | with probabilities in [0, 1], the additive score lies in [0, (L - n)/L] when n < L, and is 0 when n >= L |
| `Scoring.ScanSeesBuildWindowsOfPrefix` | src/pygibberish/scanner.py:281-288 | for n >= 1, the accumulated sum equals the sum of the table's probabilities over the build windows of the string without its last character |
| `Scanner.ScanExample` | src/pygibberish/scanner.py:281-292 | scanning "aaba" against {"aa": 0.5, "ab": 0.25, "ba": 0.25} counts offsets 0 and 1 only: (0.5 + 0.25) / 4 = 0.1875 |

`Scan` has no `modifies` clause, so it cannot change `model`, `isModelBuilt` or
`isModelLoaded`. The frame of each state-changing method lists exactly the fields it may
assign. For example, `LoadModel` cannot touch `isModelBuilt`, and `SaveModel` can change
only `model`.

## Left out

- Reading files and parsing them (`open`, `readlines`, `literal_eval`, `json.dump`, the
  `encoding` argument): the corpus is a `seq<string>` of lines, and `LoadModel` receives
  the parsed model as a `Model` value. Parse failures and missing keys in the file are not
  modelled.
- Writing and reading back a model file: in the source, `json.dump` (with `ensure_ascii`
  on) followed by `literal_eval` is not an exact inverse. A character above U+FFFF is
  written as a `\ud83d\ude00`-style surrogate pair, which `literal_eval` reads back as two
  lone surrogates, so such a window key changes. `SaveThenLoad` assumes the file parses
  back to the model that was written.
- The pandas DataFrame and Series: both tables are a `map<string, real>`. The attribute
  errors that follow from mixing a `dict` and a DataFrame are described above and not
  modelled.
- Floating point: probabilities and scores are exact `real`s, with no rounding.
- Scanning the empty string: with a model present the source divides by zero
  (`scanner.py:292`); with no model it raises `TypeError` at `scanner.py:272`, before the
  division. `Scan` requires `|s| > 0`, so it rules out both cases.
- The progress bar (`tqdm`), timestamps (`_system_datetime`) and warnings. The
  default-character-set branch is also left out. It is dead, because `__init__` sets
  `ch_set` to `{}` and never to `None`. `ch_set` and `transition_matrix_size` never affect
  building or scanning, so they are not fields here.
- The `isinstance` checks: Dafny's types take their place. `state_size` is a `nat`, so
  negative window widths are not modelled.
- The usage scripts `scan_gibberish_example.py` and `build_model_example.py`, and the
  exception class in `src/pygibberish/_error.py`. That class is the `ModelNotExist` error
  value here.
- Scanner.CountStates: does not state that the index lists the windows in the order they
  were first seen (the pandas row order); it states only that each key is listed once.

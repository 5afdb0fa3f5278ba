# Volatility skew: cleaning option chains and choosing a curve

A model of the data handling in `Volatility_Skew.py`. The program fetches a
ticker's option chains. It cleans each maturity's table of quotes, lets the
user choose a side (calls, puts or both) and a maturity, and plots implied
volatility against moneyness (strike / spot).

The model covers four parts of that script:

- `StockData.clean_options_data` (module `StockData`, file `stock_data.dfy`).
  For each maturity's table it drops four provider columns, drops rows whose
  implied volatility is missing, drops rows whose implied volatility is at
  most 0.001, adds `spreadBidAsk = (ask - bid) / ask` and drops rows where
  that spread is above 0.1. A maturity is kept only if its table still has
  rows. The loop over the dict is a method, `CleanOptionsData`, proved equal
  to a specification function, `CleanDict`. The row filters are pure
  functions over sequences, with lemmas about them.
- The axes built by `SkewModelizer.__init__` (module `Skew`, file `skew.dfy`).
  A class with the same fields holds the result. Pure functions compute the
  moneyness column, cut rows whose moneyness is above the maximum ratio, and
  take both axes.
- The driver at the bottom of the file (module `Driver`, file `driver.dfy`).
  It holds the common-maturities comprehension and the re-prompting loops. It
  also models the run as a whole, which shows that every `cleaned_options[maturity]`
  lookup is on a key that exists.
- Support modules. `Floats` (`floats.dfy`) gives pandas float semantics:
  division by zero yields +inf, -inf or NaN, and comparisons with NaN are
  false. `Seqs` (`seqs.dfy`) gives order-preserving `Map`/`Filter` and a
  subsequence relation. `Dicts` (`dicts.dfy`) models a Python dict as its
  pairs in insertion order. `Wrappers` (`wrappers.dfy`) gives `Option`, used
  for values that may be missing (NaN).

Representation choices:

- A table is a sequence of rows.
- A dict from maturity to table is a sequence of (maturity, table) pairs in
  insertion order, with distinct keys.
- Prices are `real`.
- A missing bid, ask or implied volatility is `None`.
- The spread column holds `Finite(r) | PosInf | NegInf | NaN`.
- The columns the cleaning keeps but never reads (last price, volume, ...)
  go into the `otherColumns` field unchanged.

Two behaviours of the code are worth stating plainly:

- A quote with `ask = 0` is not always excluded. When `bid > 0`,
  `(0 - bid) / 0` is -inf, and -inf passes `<= 0.1`, so the row is kept. With
  `bid = 0` the spread is NaN, and with `bid < 0` it is +inf. Both of those
  rows are dropped. `StockData.SpreadFilterCases` states all three cases.
- Only the "both" branch checks for an empty set of maturities, and it then
  exits cleanly. On a single side with no cleaned maturities, the code prints
  an empty list and re-prompts forever. In the model (`Driver.RunOneSide`)
  such a run can only end with `InputExhausted`, because no typed line is
  ever accepted.

## Model

| member | source | states |
|---|---|---|
| `StockData.CleanOptionsData` | Volatility_Skew.py:36-49 | The loop over the dict's maturities returns exactly `CleanDict` of its input. The result has no repeated maturity, and no maturity in it maps to an empty table. |
| `StockData.CleanDictStep` | Volatility_Skew.py:41-48 | One loop iteration appends the maturity with its cleaned table exactly when that table kept rows. The maturity is never already a key, so `cleaned_options[expiry] = df` appends an entry and never overwrites one. |
| `StockData.CleanDictGet` | Volatility_Skew.py:40-49 | Looked up as a dict, the cleaned result has a maturity exactly when the input has it and its cleaned table is non-empty. Its value is then that cleaned table. |
| `StockData.CleanDictKeysOrder` | Volatility_Skew.py:41-48 | The cleaned dict's maturities are a subsequence of the input's, in the input's order. |
| `StockData.FilterRowsMembers` | Volatility_Skew.py:43-46 | A row survives the four filters exactly when it is acceptable: its implied volatility is present and above 0.001, and its spread compares at most 0.1. A surviving row carries its own computed spread. |
| `StockData.FilterRowsExact` | Volatility_Skew.py:43-46 | The four filters together keep exactly the acceptable rows, in the input's order and once per occurrence, each with its spread added. |
| `StockData.CleanTableMembers` | Volatility_Skew.py:42-46 | The cleaned table equals the input's acceptable rows in order, with the four metadata columns dropped and the spread added. As a consequence, a row is in it iff its projection is in the input and acceptable; no row with a missing implied volatility survives. |
| `StockData.CleanTableOrder` | Volatility_Skew.py:42-46 | Without its spread column, the cleaned table is a subsequence of the projected input rows: no row is reordered, repeated or altered. |
| `StockData.FilterRowsIdempotent` | Volatility_Skew.py:43-46 | Applying the four row filters again to the rows they kept returns the same table. |
| `StockData.SpreadFilterCases` | Volatility_Skew.py:45-46 | The spread filter on one row. A missing bid or ask fails. With ask > 0 the row passes iff bid >= 0.9·ask, and with ask < 0 iff bid <= 0.9·ask. With ask = 0 it passes iff bid > 0 (the -inf case); bid = 0 (NaN) and bid < 0 (+inf) fail. |
| `Floats.Div` | Volatility_Skew.py:45 | Column division never raises. The result is finite iff the divisor is non-zero, and then multiplying it by the divisor gives the dividend. A zero divisor gives NaN exactly for a zero dividend and -inf exactly for a negative one. |
| `Dicts.SetItemNewKey` | Volatility_Skew.py:48 | Assigning to a key the dict lacks appends the pair at the end, so insertion order is the loop's order. |
| `Dicts.SetItemFrame` | Volatility_Skew.py:48 | After `d[k] = v`, looking up `k` gives `v` and every other key keeps its value. The keys are those of `d` plus `k`, and no key appears twice. |
| `Skew.RemoveOutliersMembers` | Volatility_Skew.py:59-60 | For a positive spot, a row is kept exactly when it is in the table and strike/spot <= the maximum ratio. There is no lower bound. |
| `Skew.SkewAxes` | Volatility_Skew.py:59-62 | For a positive spot, the kept rows are a subsequence of the table and both axes have one entry per kept row. The i-th x is that row's strike/spot, which is at most the maximum ratio. The i-th y is the same row's implied volatility. |
| `Skew.CurveFromCleanedChain` | Volatility_Skew.py:59-62 | A curve drawn from a cleaned chain uses only rows of the chosen maturity's own input table. Every y value is a present implied volatility above 0.001. |
| `Skew.SkewModelizer.constructor` | Volatility_Skew.py:54-62 | Needs the maturity to be a key (otherwise the lookup raises KeyError). It stores the arguments, the ratio column of the whole table, the rows within the maximum ratio, and the axes of those rows. |
| `Driver.CommonMaturities` | Volatility_Skew.py:89 | A maturity is in the result iff it is a key of both cleaned chains. The result keeps the calls' order, as a subsequence of the calls' keys. |
| `Driver.PromptUntilValid` | Volatility_Skew.py:120-123 | The accepted line is the first typed line that is among the choices, and every earlier line was rejected. If no typed line is valid, the input runs out. The same loop shape is at lines 74-76 and 97-99. |
| `Driver.BuildCurve` | Volatility_Skew.py:126 | Building a `SkewModelizer` for a maturity that is a key of the cleaned chain gives the curve `SkewCurve` describes. |
| `Driver.RunBoth` | Volatility_Skew.py:79-103 | With side "both", the run stops with "no common maturities", and no curve, exactly when calls and puts share no cleaned maturity. Otherwise the chosen maturity is common to both, and so is a key of each. The two curves are drawn from the calls' and the puts' tables for that maturity. |
| `Driver.RunOneSide` | Volatility_Skew.py:112-126 | With one side, the chosen maturity is a key of that side's cleaned chain. The one curve is drawn from its table. |
| `Driver.Run` | Volatility_Skew.py:71-126 | Over the whole run, the ticker is the first typed line. "No common maturities" happens only when the intersection is empty. A plotted run is either a "both" run or a single-side run as described above, so no `cleaned_options[maturity]` lookup can fail. |

## Left out

- `StockData.__init__` and `gather_options_data` call the market-data provider over the network. The raw maturity-to-table dicts and the spot price are parameters of `Driver.Run`. `clean_options_data` reads no field of `self`, so it is a module-level method.
- `SkewModelizer.model`, `plt.figure`, `plt.title` and `plt.show` only draw. A run that plots returns its curves (legend, x axis, y axis) instead.
- `input` becomes a finite sequence of typed lines. When the lines run out, Python's `input` raises EOFError; the model returns `InputExhausted`. `print` and `exit()` are not modelled apart from the outcome they lead to.
- `.capitalize()` on the ticker is a library string call. The ticker is the typed line as it is.
- `drop(columns=...)` raises KeyError when one of the four columns is absent. The model's raw row always has them.
- Binary floating point is not modelled. Values are exact reals, so the constants 0.001, 0.1 and 2 are exact. Rounding, signed zero (an ask of -0.0 would flip the infinities), and infinite bids or asks are not modelled.
- The unused imports (numpy, datetime, scipy) have no behaviour.
- Driver.Run: states what a plotted or "no common maturities" run satisfies. It does not state which typed line chose the side, or exactly when the input runs out. `Driver.PromptUntilValid` states both for each prompt.

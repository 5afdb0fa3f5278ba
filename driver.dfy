/**
 * The script at the bottom of Volatility_Skew.py: read the ticker and the
 * option side, clean the chain(s), choose a maturity the cleaned data has,
 * and build the curve(s). The lines the user types are the sequence `stdin`;
 * the provider's chains and the spot price are parameters.
 */
module Driver {
  import opened Wrappers
  import opened Floats
  import opened Seqs
  import opened Dicts
  import opened StockData
  import opened Skew

  const OPTION_TYPES: seq<string> := ["calls", "puts", "both"]
  /** The `max_strike_ratio = 2` passed to every `SkewModelizer`. */
  const MAX_STRIKE_RATIO: real := 2.0

  /** One plotted series: its legend (the side) and its two axes. */
  datatype Curve = Curve(legend: string, xaxis: seq<ExtReal>, yaxis: seq<Option<real>>)

  datatype Outcome =
    | InputExhausted        // `input()` reached the end of input: EOFError, uncaught
    | NoCommonMaturities    // "No maturities avalaible ...", then `exit()`
    | Plotted(ticker: string, maturity: string, curves: seq<Curve>)

  /**
   * `[maturity for maturity in clean_calls if maturity in clean_puts]`: the
   * calls' maturities that are also puts' maturities, in the calls' order.
   */
  function CommonMaturities(cleanCalls: Dict<CleanedTable>, cleanPuts: Dict<CleanedTable>): (common: seq<string>)
    ensures forall m :: m in common <==> m in Keys(cleanCalls) && m in Keys(cleanPuts)
    ensures Subseq(common, Keys(cleanCalls))
  {
    var putKeys := Keys(cleanPuts);
    Filter(m => m in putKeys, Keys(cleanCalls))
  }

  /**
   * A prompt followed by `while answer not in choices: answer = input(...)`.
   * `entries` are the lines typed, in order. The result is the index of the
   * line that is accepted: the first one in `choices`. It is |entries| when
   * the input runs out first.
   */
  method PromptUntilValid(choices: seq<string>, entries: seq<string>) returns (n: nat)
    ensures n <= |entries|
    ensures n < |entries| ==> entries[n] in choices
    ensures forall j :: 0 <= j < n ==> entries[j] !in choices
  {
    n := 0;
    while n < |entries| && entries[n] !in choices
      invariant n <= |entries|
      invariant forall j :: 0 <= j < n ==> entries[j] !in choices
    {
      n := n + 1;
    }
  }

  /** The cleaned chain of one side, `clean_options_data(gather_options_data(side))`. */
  function ChainFor(side: string, rawCalls: Dict<RawTable>, rawPuts: Dict<RawTable>): Dict<CleanedTable>
  {
    if side == "calls" then CleanDict(rawCalls) else CleanDict(rawPuts)
  }

  /** The series of `SkewModelizer(cleaned, side, maturity, spot, ticker, 2)`. */
  function SkewCurve(cleaned: Dict<CleanedTable>, side: string, maturity: string, currentPrice: real): Curve
    requires maturity in Keys(cleaned)
  {
    var rows := RemoveOutliers(Get(cleaned, maturity).value, currentPrice, MAX_STRIKE_RATIO);
    Curve(side, StrikePriceRatio(rows, currentPrice), YAxis(rows))
  }

  /**
   * A "both" run that plotted: its maturity is common to the cleaned calls and
   * puts, hence a key of each, and its two curves are drawn from each side's
   * table for that maturity.
   */
  predicate PlottedBoth(outcome: Outcome, currentPrice: real, rawCalls: Dict<RawTable>, rawPuts: Dict<RawTable>)
  {
    && outcome.Plotted?
    && outcome.maturity in CommonMaturities(CleanDict(rawCalls), CleanDict(rawPuts))
    && outcome.maturity in Keys(CleanDict(rawCalls))
    && outcome.maturity in Keys(CleanDict(rawPuts))
    && outcome.curves == [
         SkewCurve(CleanDict(rawCalls), "calls", outcome.maturity, currentPrice),
         SkewCurve(CleanDict(rawPuts), "puts", outcome.maturity, currentPrice)]
  }

  /**
   * A single-side run that plotted: its maturity is a key of that side's
   * cleaned chain, and its one curve is drawn from that maturity's table.
   */
  predicate PlottedOne(outcome: Outcome, side: string, currentPrice: real,
                       rawCalls: Dict<RawTable>, rawPuts: Dict<RawTable>)
  {
    && outcome.Plotted?
    && (side == "calls" || side == "puts")
    && outcome.maturity in Keys(ChainFor(side, rawCalls, rawPuts))
    && outcome.curves == [SkewCurve(ChainFor(side, rawCalls, rawPuts), side, outcome.maturity, currentPrice)]
  }

  /**
   * The whole run. Whatever is typed, a curve is built only for a maturity
   * that is a key of the cleaned chain it indexes (so `cleaned_options[maturity]`
   * never fails); with side "both" that maturity is common to calls and puts,
   * and when there is none the run stops before any curve is built.
   */
  method Run(stdin: seq<string>, currentPrice: real, rawCalls: Dict<RawTable>, rawPuts: Dict<RawTable>)
    returns (outcome: Outcome)
    requires DistinctKeys(rawCalls) && DistinctKeys(rawPuts)
    ensures outcome.NoCommonMaturities? ==> CommonMaturities(CleanDict(rawCalls), CleanDict(rawPuts)) == []
    ensures outcome.Plotted? ==> |stdin| > 0 && outcome.ticker == stdin[0]
    ensures outcome.Plotted? ==>
      || PlottedBoth(outcome, currentPrice, rawCalls, rawPuts)
      || PlottedOne(outcome, "calls", currentPrice, rawCalls, rawPuts)
      || PlottedOne(outcome, "puts", currentPrice, rawCalls, rawPuts)
  {
    if |stdin| == 0 {
      return InputExhausted;
    }
    var ticker := stdin[0];
    var rest := stdin[1..];
    var k := PromptUntilValid(OPTION_TYPES, rest);
    if k == |rest| {
      return InputExhausted;
    }
    var optionsType := rest[k];
    rest := rest[k + 1..];
    if optionsType == "both" {
      outcome := RunBoth(ticker, rest, currentPrice, rawCalls, rawPuts);
    } else {
      outcome := RunOneSide(ticker, optionsType, rest, currentPrice, rawCalls, rawPuts);
    }
  }

  /** The branch `if options_type == 'both'`: both chains, their common maturities, two curves. */
  method RunBoth(ticker: string, stdin: seq<string>, currentPrice: real,
                 rawCalls: Dict<RawTable>, rawPuts: Dict<RawTable>) returns (outcome: Outcome)
    requires DistinctKeys(rawCalls) && DistinctKeys(rawPuts)
    ensures outcome.NoCommonMaturities? <==> CommonMaturities(CleanDict(rawCalls), CleanDict(rawPuts)) == []
    ensures outcome.Plotted? ==> outcome.ticker == ticker && PlottedBoth(outcome, currentPrice, rawCalls, rawPuts)
  {
    var cleanCalls := CleanOptionsData(rawCalls);
    var cleanPuts := CleanOptionsData(rawPuts);
    var common := CommonMaturities(cleanCalls, cleanPuts);
    if common == [] {
      return NoCommonMaturities;
    }
    var m := PromptUntilValid(common, stdin);
    if m == |stdin| {
      return InputExhausted;
    }
    var maturity := stdin[m];
    var callsCurve := BuildCurve(cleanCalls, "calls", maturity, currentPrice, ticker);
    var putsCurve := BuildCurve(cleanPuts, "puts", maturity, currentPrice, ticker);
    outcome := Plotted(ticker, maturity, [callsCurve, putsCurve]);
  }

  /** The `else` branch: one side's chain, a maturity among its keys, one curve. */
  method RunOneSide(ticker: string, optionsType: string, stdin: seq<string>, currentPrice: real,
                    rawCalls: Dict<RawTable>, rawPuts: Dict<RawTable>) returns (outcome: Outcome)
    requires optionsType == "calls" || optionsType == "puts"
    requires DistinctKeys(rawCalls) && DistinctKeys(rawPuts)
    ensures !outcome.NoCommonMaturities?
    ensures outcome.Plotted? ==> outcome.ticker == ticker && PlottedOne(outcome, optionsType, currentPrice, rawCalls, rawPuts)
  {
    var optionsDict := if optionsType == "calls" then rawCalls else rawPuts;
    var cleanOptions := CleanOptionsData(optionsDict);
    var maturities := Keys(cleanOptions);
    var m := PromptUntilValid(maturities, stdin);
    if m == |stdin| {
      return InputExhausted;
    }
    var maturity := stdin[m];
    var curve := BuildCurve(cleanOptions, optionsType, maturity, currentPrice, ticker);
    outcome := Plotted(ticker, maturity, [curve]);
  }

  /** `SkewModelizer(cleaned, optionsType, maturity, spot, ticker, max_strike_ratio=2)`, then its series. */
  method BuildCurve(cleaned: Dict<CleanedTable>, optionsType: string, maturity: string,
                    currentPrice: real, ticker: string) returns (curve: Curve)
    requires maturity in Keys(cleaned)
    ensures curve == SkewCurve(cleaned, optionsType, maturity, currentPrice)
  {
    var modeling := new SkewModelizer(cleaned, optionsType, maturity, currentPrice, ticker, MAX_STRIKE_RATIO);
    curve := Curve(modeling.optionsType, modeling.xaxis, modeling.yaxis);
  }
}

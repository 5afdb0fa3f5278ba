/**
 * `SkewModelizer`: the curve for one maturity of one side. Its constructor
 * computes every row's moneyness (strike / spot), drops the rows whose
 * moneyness exceeds the maximum ratio, and keeps the moneyness and implied
 * volatility of the rest as the plot's axes.
 */
module Skew {
  import opened Wrappers
  import opened Floats
  import opened Seqs
  import opened Dicts
  import opened StockData

  /** `strike / current_price` for one row. */
  function Moneyness(c: CleanQuote, currentPrice: real): ExtReal
  {
    Div(c.quote.strike, currentPrice)
  }

  /** The column `table['strike'] / current_price`. */
  function StrikePriceRatio(table: CleanedTable, currentPrice: real): seq<ExtReal>
  {
    Map(c => Moneyness(c, currentPrice), table)
  }

  /** `table[strike_price_ratio <= max_strike_ratio]`: the far out-of-the-money wing is cut, nothing below. */
  function RemoveOutliers(table: CleanedTable, currentPrice: real, maxStrikeRatio: real): CleanedTable
  {
    Filter(c => AtMost(Moneyness(c, currentPrice), maxStrikeRatio), table)
  }

  function VolatilityOf(c: CleanQuote): Option<real>
  {
    c.quote.impliedVolatility
  }

  /** The column `table['impliedVolatility']`. */
  function YAxis(table: CleanedTable): seq<Option<real>>
  {
    Map(VolatilityOf, table)
  }

  /**
   * With a positive spot, the moneyness filter keeps exactly the rows whose
   * strike / spot is at most the maximum: there is no lower bound, so a row
   * with a tiny ratio is kept.
   */
  lemma RemoveOutliersMembers(table: CleanedTable, currentPrice: real, maxStrikeRatio: real)
    requires currentPrice > 0.0
    ensures forall c :: c in RemoveOutliers(table, currentPrice, maxStrikeRatio) <==>
      c in table && c.quote.strike / currentPrice <= maxStrikeRatio
  {
    forall c
      ensures Moneyness(c, currentPrice) == Finite(c.quote.strike / currentPrice)
    {
    }
  }

  /**
   * With a positive spot the two axes have one point per kept row, in the
   * table's order: the i-th x is that row's strike / spot, which is at most the
   * maximum, and the i-th y is the same row's implied volatility.
   */
  lemma SkewAxes(table: CleanedTable, currentPrice: real, maxStrikeRatio: real)
    requires currentPrice > 0.0
    ensures var rows := RemoveOutliers(table, currentPrice, maxStrikeRatio);
      var xaxis, yaxis := StrikePriceRatio(rows, currentPrice), YAxis(rows);
      && Subseq(rows, table)
      && |xaxis| == |yaxis| == |rows|
      && forall i :: 0 <= i < |rows| ==>
           && xaxis[i] == Finite(rows[i].quote.strike / currentPrice)
           && rows[i].quote.strike / currentPrice <= maxStrikeRatio
           && yaxis[i] == rows[i].quote.impliedVolatility
  {
    var rows := RemoveOutliers(table, currentPrice, maxStrikeRatio);
    forall i | 0 <= i < |rows|
      ensures rows[i].quote.strike / currentPrice <= maxStrikeRatio
    {
      assert AtMost(Moneyness(rows[i], currentPrice), maxStrikeRatio);
    }
  }

  /**
   * A curve drawn from a cleaned chain uses only rows of the chosen
   * maturity's own table, and every y value is a present implied volatility
   * above the cleaning minimum.
   */
  lemma CurveFromCleanedChain(d: Dict<RawTable>, maturity: string, currentPrice: real, maxStrikeRatio: real)
    requires DistinctKeys(d)
    requires maturity in Keys(CleanDict(d))
    ensures Get(d, maturity).Some?
    ensures var rows := RemoveOutliers(Get(CleanDict(d), maturity).value, currentPrice, maxStrikeRatio);
      forall i :: 0 <= i < |rows| ==>
        && rows[i].quote in Map(DropMetadata, Get(d, maturity).value)
        && YAxis(rows)[i].Some? && YAxis(rows)[i].value > MIN_VOLATILITY
  {
    CleanDictGet(d, maturity);
    var t := Get(d, maturity).value;
    CleanTableMembers(t);
    var rows := RemoveOutliers(CleanTable(t), currentPrice, maxStrikeRatio);
    forall i | 0 <= i < |rows|
      ensures rows[i] in CleanTable(t)
    {
      assert rows[i] in rows;
    }
  }

  /** The object `SkewModelizer(...)` builds; `model()` only draws it and is not modelled. */
  class SkewModelizer {
    const ticker: string
    const optionsType: string
    const maturity: string
    const currentPrice: real
    const strikePriceRatio: seq<ExtReal>
    const removingOutliers: CleanedTable
    const xaxis: seq<ExtReal>
    const yaxis: seq<Option<real>>

    /** `cleaned_options[maturity]` raises KeyError for a maturity that is not a key. */
    constructor (cleanedOptions: Dict<CleanedTable>, optionsType: string, maturity: string,
                 currentPrice: real, ticker: string, maxStrikeRatio: real)
      requires maturity in Keys(cleanedOptions)
      ensures this.ticker == ticker && this.optionsType == optionsType
      ensures this.maturity == maturity && this.currentPrice == currentPrice
      ensures strikePriceRatio == StrikePriceRatio(Get(cleanedOptions, maturity).value, currentPrice)
      ensures removingOutliers == RemoveOutliers(Get(cleanedOptions, maturity).value, currentPrice, maxStrikeRatio)
      ensures xaxis == StrikePriceRatio(removingOutliers, currentPrice)
      ensures yaxis == YAxis(removingOutliers)
    {
      this.ticker := ticker;
      this.optionsType := optionsType;
      this.maturity := maturity;
      this.currentPrice := currentPrice;
      var table := Get(cleanedOptions, maturity).value;
      strikePriceRatio := StrikePriceRatio(table, currentPrice);
      var rows := RemoveOutliers(table, currentPrice, maxStrikeRatio);
      removingOutliers := rows;
      xaxis := StrikePriceRatio(rows, currentPrice);
      yaxis := YAxis(rows);
    }
  }
}

/**
 * `StockData.clean_options_data`: the data-quality filters applied to every
 * maturity's table of option quotes, and the loop that collects the tables
 * that still have rows.
 */
module StockData {
  import opened Wrappers
  import opened Floats
  import opened Seqs
  import opened Dicts

  /** Rows whose implied volatility is not above this are dropped. */
  const MIN_VOLATILITY: real := 0.001
  /** Rows whose relative bid/ask spread is above this are dropped. */
  const MAX_SPREAD: real := 0.1

  /**
   * One row of the provider's table of calls or puts. A missing number (NaN)
   * is `None`; the provider's remaining columns (last trade date, last price,
   * change, volume, ...) are carried as text in `otherColumns`.
   */
  datatype RawQuote = RawQuote(
    contractSymbol: string,
    strike: real,
    bid: Option<real>,
    ask: Option<real>,
    impliedVolatility: Option<real>,
    openInterest: Option<real>,
    contractSize: string,
    currency: string,
    otherColumns: map<string, string>)

  /** A row once the columns contractSymbol, openInterest, contractSize and currency are dropped. */
  datatype Quote = Quote(
    strike: real,
    bid: Option<real>,
    ask: Option<real>,
    impliedVolatility: Option<real>,
    otherColumns: map<string, string>)

  /** A row of a cleaned table: the quote and its added column spreadBidAsk. */
  datatype CleanQuote = CleanQuote(quote: Quote, spreadBidAsk: ExtReal)

  type RawTable = seq<RawQuote>
  type CleanedTable = seq<CleanQuote>

  /** `drop(columns=['contractSymbol', 'openInterest', 'contractSize', 'currency'])` on one row. */
  function DropMetadata(r: RawQuote): Quote
  {
    Quote(r.strike, r.bid, r.ask, r.impliedVolatility, r.otherColumns)
  }

  /** `(ask - bid) / ask` with pandas' float semantics. */
  function SpreadBidAsk(bid: Option<real>, ask: Option<real>): ExtReal
  {
    DivOpt(Sub(ask, bid), ask)
  }

  /** The mask of `dropna(subset=['impliedVolatility'])`. */
  predicate HasVolatility(q: Quote)
  {
    q.impliedVolatility.Some?
  }

  /** The mask `impliedVolatility > min_volatility`. */
  predicate AboveMinVolatility(q: Quote)
  {
    Exceeds(q.impliedVolatility, MIN_VOLATILITY)
  }

  /** Adding the spreadBidAsk column to one row. */
  function AddSpread(q: Quote): CleanQuote
  {
    CleanQuote(q, SpreadBidAsk(q.bid, q.ask))
  }

  /** The mask `spreadBidAsk <= max_spread`. */
  predicate TightSpread(c: CleanQuote)
  {
    AtMost(c.spreadBidAsk, MAX_SPREAD)
  }

  /**
   * What a row must satisfy to be kept, stated once for the whole pipeline:
   * an implied volatility that is present and above the minimum, and a
   * relative spread that compares at most the maximum.
   */
  predicate Acceptable(q: Quote)
  {
    q.impliedVolatility.Some? && q.impliedVolatility.value > MIN_VOLATILITY
    && AtMost(SpreadBidAsk(q.bid, q.ask), MAX_SPREAD)
  }

  function QuoteOf(c: CleanQuote): Quote
  {
    c.quote
  }

  /** The four row filters of one table, in the order the source applies them. */
  function FilterRows(t: seq<Quote>): CleanedTable
  {
    Filter(TightSpread, Map(AddSpread, Filter(AboveMinVolatility, Filter(HasVolatility, t))))
  }

  /** One maturity's table: drop the metadata columns, then filter the rows. */
  function CleanTable(t: RawTable): CleanedTable
  {
    FilterRows(Map(DropMetadata, t))
  }

  /**
   * A row survives the four filters exactly when it is acceptable, and it
   * comes out with its own spread in the added column.
   */
  lemma FilterRowsMembers(t: seq<Quote>)
    ensures forall c :: c in FilterRows(t) <==> c.quote in t && Acceptable(c.quote) && c == AddSpread(c.quote)
  {
    var f1 := Filter(HasVolatility, t);
    var f2 := Filter(AboveMinVolatility, f1);
    var m := Map(AddSpread, f2);
    forall c
      ensures c in m <==> c.quote in f2 && c == AddSpread(c.quote)
    {
      if c in m {
        var i :| 0 <= i < |m| && m[i] == c;
        assert f2[i] in f2;
      }
      if c.quote in f2 && c == AddSpread(c.quote) {
        var i :| 0 <= i < |f2| && f2[i] == c.quote;
        assert m[i] == c;
      }
    }
  }

  /**
   * The four filters in one: the kept rows are the acceptable rows of the
   * input, each once per occurrence and in the input's order, with the spread
   * column added.
   */
  lemma {:induction false} FilterRowsExact(t: seq<Quote>)
    ensures FilterRows(t) == Map(AddSpread, Filter(Acceptable, t))
    decreases |t|
  {
    if t != [] {
      var s, x := t[..|t| - 1], t[|t| - 1];
      assert t == s + [x];
      FilterRowsExact(s);
      FilterRowsAppend(s, x);
      FilterAppend(Acceptable, s, x);
      MapAppend(AddSpread, Filter(Acceptable, s), x);
    }
  }

  /** A row appended to the input is kept, with its spread, exactly when it is acceptable. */
  lemma FilterRowsAppend(s: seq<Quote>, x: Quote)
    ensures FilterRows(s + [x]) == FilterRows(s) + (if Acceptable(x) then [AddSpread(x)] else [])
  {
    var f1 := Filter(HasVolatility, s);
    var f2 := Filter(AboveMinVolatility, f1);
    var m := Map(AddSpread, f2);
    FilterAppend(HasVolatility, s, x);
    if !HasVolatility(x) {
      assert Filter(HasVolatility, s + [x]) == f1;
    } else {
      assert Filter(HasVolatility, s + [x]) == f1 + [x];
      FilterAppend(AboveMinVolatility, f1, x);
      if !AboveMinVolatility(x) {
        assert Filter(AboveMinVolatility, f1 + [x]) == f2;
      } else {
        assert Filter(AboveMinVolatility, f1 + [x]) == f2 + [x];
        MapAppend(AddSpread, f2, x);
        FilterAppend(TightSpread, m, AddSpread(x));
        assert Acceptable(x) == TightSpread(AddSpread(x));
      }
    }
  }

  /**
   * The rows kept from one maturity's table are exactly its acceptable rows,
   * in order and each once per occurrence, metadata dropped and spread added:
   * every kept row has a present implied volatility above 0.001 and a spread
   * that compares at most 0.1, and every such row is kept.
   */
  lemma CleanTableMembers(t: RawTable)
    ensures CleanTable(t) == Map(AddSpread, Filter(Acceptable, Map(DropMetadata, t)))
    ensures forall c :: c in CleanTable(t) <==>
      c.quote in Map(DropMetadata, t) && Acceptable(c.quote) && c == AddSpread(c.quote)
  {
    FilterRowsExact(Map(DropMetadata, t));
    FilterRowsMembers(Map(DropMetadata, t));
  }

  /**
   * Cleaning neither reorders, repeats nor alters rows: stripped of the added
   * column, the cleaned table is a subsequence of the input's rows with their
   * metadata dropped.
   */
  lemma CleanTableOrder(t: RawTable)
    ensures Subseq(Map(QuoteOf, CleanTable(t)), Map(DropMetadata, t))
  {
    var q := Map(DropMetadata, t);
    var f1 := Filter(HasVolatility, q);
    var f2 := Filter(AboveMinVolatility, f1);
    var m := Map(AddSpread, f2);
    var r := Filter(TightSpread, m);
    SubseqMap(QuoteOf, r, m);
    assert Map(QuoteOf, m) == f2;
    SubseqTrans(f2, f1, q);
    SubseqTrans(Map(QuoteOf, r), f2, q);
  }

  /** Running the row filters again on rows they kept changes nothing. */
  lemma FilterRowsIdempotent(t: seq<Quote>)
    ensures FilterRows(Map(QuoteOf, FilterRows(t))) == FilterRows(t)
  {
    var r := FilterRows(t);
    var qs := Map(QuoteOf, r);
    FilterRowsMembers(t);
    assert forall i :: 0 <= i < |qs| ==> qs[i] == r[i].quote && r[i] in r;
    FilterKeepsAll(HasVolatility, qs);
    FilterKeepsAll(AboveMinVolatility, qs);
    assert Map(AddSpread, qs) == r;
    FilterKeepsAll(TightSpread, r);
  }

  /**
   * The spread filter row by row. A missing bid or ask gives NaN and fails. A
   * positive ask passes when bid >= 0.9 * ask, a negative ask when
   * bid <= 0.9 * ask. A zero ask passes exactly when bid > 0, since
   * (0 - bid) / 0 is then -inf; bid = 0 gives NaN and bid < 0 gives +inf.
   */
  lemma SpreadFilterCases(bid: Option<real>, ask: Option<real>)
    ensures bid.None? || ask.None? ==> !AtMost(SpreadBidAsk(bid, ask), MAX_SPREAD)
    ensures bid.Some? && ask.Some? && ask.value > 0.0 ==>
      (AtMost(SpreadBidAsk(bid, ask), MAX_SPREAD) <==> bid.value >= 0.9 * ask.value)
    ensures bid.Some? && ask.Some? && ask.value < 0.0 ==>
      (AtMost(SpreadBidAsk(bid, ask), MAX_SPREAD) <==> bid.value <= 0.9 * ask.value)
    ensures bid.Some? && ask.Some? && ask.value == 0.0 ==>
      (AtMost(SpreadBidAsk(bid, ask), MAX_SPREAD) <==> bid.value > 0.0)
  {
    if bid.Some? && ask.Some? && ask.value != 0.0 {
      var a, b := ask.value, bid.value;
      var q := (a - b) / a;
      assert SpreadBidAsk(bid, ask) == Finite(q);
      assert (MAX_SPREAD - q) * a == b - 0.9 * a;
      ProductSign(MAX_SPREAD - q, a);
    }
  }

  lemma ProductSign(x: real, a: real)
    requires a != 0.0
    ensures a > 0.0 ==> (x >= 0.0 <==> x * a >= 0.0)
    ensures a < 0.0 ==> (x >= 0.0 <==> x * a <= 0.0)
  {
  }

  /** `cleaned_options[expiry] = df` happens only for a table that kept rows. */
  predicate NonEmptyEntry(e: (string, CleanedTable))
  {
    e.1 != []
  }

  function CleanEntry(e: (string, RawTable)): (string, CleanedTable)
  {
    (e.0, CleanTable(e.1))
  }

  /** What `clean_options_data` returns, as a specification. */
  function CleanDict(d: Dict<RawTable>): Dict<CleanedTable>
  {
    Filter(NonEmptyEntry, Map(CleanEntry, d))
  }

  /**
   * `clean_options_data`: cleans each maturity's table in the dict's order
   * and keeps the maturities whose table still has rows.
   */
  method CleanOptionsData(optionsDict: Dict<RawTable>) returns (cleanedOptions: Dict<CleanedTable>)
    requires DistinctKeys(optionsDict)
    ensures cleanedOptions == CleanDict(optionsDict)
    ensures DistinctKeys(cleanedOptions)
    ensures forall i :: 0 <= i < |cleanedOptions| ==> cleanedOptions[i].1 != []
  {
    cleanedOptions := [];
    for n := 0 to |optionsDict|
      invariant cleanedOptions == CleanDict(optionsDict[..n])
      invariant DistinctKeys(cleanedOptions)
    {
      var (expiry, table) := optionsDict[n];
      var df := CleanTable(table);
      CleanDictStep(optionsDict, n);
      if df != [] {
        SetItemNewKey(cleanedOptions, expiry, df);
        SetItemFrame(cleanedOptions, expiry, df);
        cleanedOptions := SetItem(cleanedOptions, expiry, df);
      }
    }
    assert optionsDict[..|optionsDict|] == optionsDict;
  }

  /**
   * One iteration of the loop in `clean_options_data`: the next maturity is
   * appended when its cleaned table kept rows, and it is not yet a key.
   */
  lemma CleanDictStep(d: Dict<RawTable>, n: nat)
    requires DistinctKeys(d) && n < |d|
    ensures CleanDict(d[..n + 1]) ==
      CleanDict(d[..n]) + (if CleanTable(d[n].1) != [] then [(d[n].0, CleanTable(d[n].1))] else [])
    ensures d[n].0 !in Keys(CleanDict(d[..n]))
  {
    assert d[..n + 1] == d[..n] + [d[n]];
    MapAppend(CleanEntry, d[..n], d[n]);
    FilterAppend(NonEmptyEntry, Map(CleanEntry, d[..n]), CleanEntry(d[n]));
  }

  /**
   * The cleaned dict as a dict: a maturity is a key of it exactly when it is
   * a key of the input whose cleaned table is not empty, and then its value
   * is that cleaned table.
   */
  lemma {:induction false} CleanDictGet(d: Dict<RawTable>, k: string)
    requires DistinctKeys(d)
    ensures Get(CleanDict(d), k) ==
      match Get(d, k)
      case None => None
      case Some(t) => if CleanTable(t) == [] then None else Some(CleanTable(t))
  {
    if d != [] {
      var rest := d[1..];
      assert DistinctKeys(rest);
      assert Map(CleanEntry, d)[1..] == Map(CleanEntry, rest);
      CleanDictGet(rest, k);
      if d[0].0 == k {
        assert k !in Keys(rest);
      }
    }
  }

  /** The cleaned dict lists its maturities in the input's order, leaving some out. */
  lemma CleanDictKeysOrder(d: Dict<RawTable>)
    ensures Subseq(Keys(CleanDict(d)), Keys(d))
  {
    var m := Map(CleanEntry, d);
    SubseqMap(KeyOf, CleanDict(d), m);
    assert Map(KeyOf, CleanDict(d)) == Keys(CleanDict(d));
    assert Map(KeyOf, m) == Keys(d);
  }
}

/** Holding rows and the crypto ticker table shared by the tax scout and the narrator. */
module Tickers {

  datatype Option<T> = None | Some(value: T)

  /** One row of the holdings table, as selected by the tax scout:
      (ticker, quantity, cost_basis, current_price). A NULL ticker is the
      empty string here: both are falsy and are filtered the same way. */
  datatype Holding = Holding(ticker: string, quantity: real, costBasis: real, currentPrice: real)

  /** The placeholder ticker stored when a security could not be resolved. */
  const Unknown: string := "UNKNOWN"

  /** TICKER_MAP: crypto tickers and the symbols the price service knows them by. */
  const TickerMap: map<string, string> := map["BTC" := "BTC-USD", "ETH" := "ETH-USD", "LTC" := "LTC-USD"]

  /** `reverse_map = {v: k for k, v in TICKER_MAP.items()}`, written out;
      ReverseMapInverts shows it is the inverse of TickerMap. */
  const ReverseMap: map<string, string> := map["BTC-USD" := "BTC", "ETH-USD" := "ETH", "LTC-USD" := "LTC"]

  /** `TICKER_MAP.get(t, t)`: the symbol the price service is asked for. */
  function SearchSymbol(t: string): (s: string)
    ensures s != t <==> t in TickerMap
    ensures t in TickerMap ==> s == t + "-USD"
  {
    if t in TickerMap then TickerMap[t] else t
  }

  /** `reverse_map.get(s, s)`: the portfolio ticker a search symbol stands for. */
  function OriginalTicker(s: string): (t: string)
    ensures s in ReverseMap ==> t in TickerMap && SearchSymbol(t) == s
    ensures s !in ReverseMap ==> t == s
  {
    if s in ReverseMap then ReverseMap[s] else s
  }

  /** The reverse map undoes the ticker map on every crypto ticker. */
  lemma ReverseMapInverts(k: string)
    requires k in TickerMap
    ensures SearchSymbol(k) in ReverseMap && OriginalTicker(SearchSymbol(k)) == k
  {
    assert k == "BTC" || k == "ETH" || k == "LTC";
  }

  /** ... and holds nothing else: every reverse entry comes from a TickerMap entry. */
  lemma ReverseMapOnlyInverts(s: string)
    requires s in ReverseMap
    ensures ReverseMap[s] in TickerMap && TickerMap[ReverseMap[s]] == s
  {
    assert s == "BTC-USD" || s == "ETH-USD" || s == "LTC-USD";
  }

  /** Any other ticker that is not itself a mapped symbol survives the round trip unchanged. */
  lemma PlainTickerRoundTrip(t: string)
    requires t !in TickerMap && t !in ReverseMap
    ensures OriginalTicker(SearchSymbol(t)) == t
  {
  }

  /** A raw row already holding a mapped symbol is read back as the crypto ticker:
      'BTC-USD' is looked up as 'BTC'. */
  lemma MappedSymbolReadsAsAlias()
    ensures SearchSymbol("BTC-USD") == "BTC-USD" && OriginalTicker("BTC-USD") == "BTC"
  {
    assert "BTC-USD" in ReverseMap by { assert TickerMap["BTC"] == "BTC-USD"; }
  }

  /** `if t and t != "UNKNOWN"`: the tickers worth a price lookup. */
  predicate Searchable(t: string) {
    t != "" && t != Unknown
  }

  /** A mapped search symbol of a searchable ticker is itself searchable. */
  lemma SearchSymbolSearchable(t: string)
    requires Searchable(t)
    ensures Searchable(SearchSymbol(t))
  {
  }

  /** `abs(x)`: the magnitude of x, whichever its sign. */
  function Abs(x: real): (r: real)
    ensures r >= 0.0 && (r == x || r == -x)
  {
    if x < 0.0 then -x else x
  }

  predicate Distinct<T(==)>(s: seq<T>) {
    forall i, j :: 0 <= i < j < |s| ==> s[i] != s[j]
  }
}

/** The Tax-Loss Scout (`run_tax_scout`): group holding rows by raw ticker,
    map them to price-service symbols, price each position, classify it with
    the two-threshold decision matrix, and for every harvest opportunity ask
    the proxy adviser once and write one audit entry. */
module TaxScout {
  import opened Tickers
  import opened Vault

  // ---------------------------------------------------------------------------
  // Configuration
  // ---------------------------------------------------------------------------

  /** LOSS_THRESHOLD and MIN_HARVEST_AMOUNT. */
  datatype Config = Config(lossThreshold: real, minHarvestAmount: real)

  const DefaultConfig: Config := Config(-0.05, 1000.0)

  /** The dollar floor actually compared against: `MIN_HARVEST_AMOUNT / 10`. */
  function HarvestFloor(cfg: Config): real {
    cfg.minHarvestAmount / 10.0
  }

  lemma DefaultFloorIsOneHundred()
    ensures HarvestFloor(DefaultConfig) == 100.0 && DefaultConfig.lossThreshold == -0.05
  {
  }

  // ---------------------------------------------------------------------------
  // Step 2: grouping by raw ticker
  // ---------------------------------------------------------------------------

  /** `portfolio[ticker] = {'qty': ..., 'total_basis': ...}` */
  datatype Position = Position(qty: real, totalBasis: real)

  /** The keys of the grouped portfolio, in the order a dict inserts them:
      the first occurrence of each raw ticker. */
  function FirstOccurrence(rows: seq<Holding>): (keys: seq<string>)
    ensures |keys| <= |rows|
  {
    if rows == [] then []
    else
      var keys0 := FirstOccurrence(rows[..|rows| - 1]);
      var t := rows[|rows| - 1].ticker;
      if t in keys0 then keys0 else keys0 + [t]
  }

  /** Each raw ticker appears among the keys exactly once, and nothing else does. */
  lemma {:induction false} FirstOccurrenceKeys(rows: seq<Holding>)
    ensures Distinct(FirstOccurrence(rows))
    ensures forall t :: t in FirstOccurrence(rows) <==> exists i :: 0 <= i < |rows| && rows[i].ticker == t
  {
    if rows != [] {
      var r0 := rows[..|rows| - 1];
      FirstOccurrenceKeys(r0);
      assert forall i :: 0 <= i < |r0| ==> r0[i] == rows[i];
    }
  }

  /** Sum of the quantities of the rows whose ticker is t. */
  function QtySum(rows: seq<Holding>, t: string): real {
    if rows == [] then 0.0
    else QtySum(rows[..|rows| - 1], t) + (if rows[|rows| - 1].ticker == t then rows[|rows| - 1].quantity else 0.0)
  }

  /** Sum of the cost_basis values of the rows whose ticker is t: the stored
      value is taken to be a TOTAL basis and is not multiplied by quantity. */
  function BasisSum(rows: seq<Holding>, t: string): real {
    if rows == [] then 0.0
    else BasisSum(rows[..|rows| - 1], t) + (if rows[|rows| - 1].ticker == t then rows[|rows| - 1].costBasis else 0.0)
  }

  /** The grouped portfolio the loop at the top of `run_tax_scout` builds:
      each row adds its quantity and basis to its ticker's entry. */
  function Grouped(rows: seq<Holding>): map<string, Position> {
    if rows == [] then map[]
    else
      var g := Grouped(rows[..|rows| - 1]);
      var h := rows[|rows| - 1];
      var p := if h.ticker in g then g[h.ticker] else Position(0.0, 0.0);
      g[h.ticker := Position(p.qty + h.quantity, p.totalBasis + h.costBasis)]
  }

  /** The grouped portfolio has exactly one entry per key. */
  lemma {:induction false} GroupedKeys(rows: seq<Holding>)
    ensures forall t :: t in Grouped(rows) <==> t in FirstOccurrence(rows)
  {
    if rows != [] {
      GroupedKeys(rows[..|rows| - 1]);
    }
  }

  /** Each entry holds the sum of that ticker's quantities and the sum of its
      cost_basis values. */
  lemma {:induction false} GroupedSums(rows: seq<Holding>, t: string)
    requires t in Grouped(rows)
    ensures Grouped(rows)[t] == Position(QtySum(rows, t), BasisSum(rows, t))
  {
    var r0 := rows[..|rows| - 1];
    var h := rows[|rows| - 1];
    if t in Grouped(r0) {
      GroupedSums(r0, t);
    } else {
      GroupedKeys(r0);
      FirstOccurrenceKeys(r0);
      assert forall i :: 0 <= i < |r0| ==> r0[i].ticker != t;
      SumsOfAbsentTicker(r0, t);
    }
  }

  /** One more row adds its quantity and basis to its ticker's entry. */
  lemma GroupedSnoc(rows: seq<Holding>, h: Holding)
    ensures Grouped(rows + [h]) ==
      var g := Grouped(rows);
      var p := if h.ticker in g then g[h.ticker] else Position(0.0, 0.0);
      g[h.ticker := Position(p.qty + h.quantity, p.totalBasis + h.costBasis)]
  {
    assert (rows + [h])[..|rows + [h]| - 1] == rows;
  }

  /** One more row adds its ticker to the keys iff it is new. */
  lemma FirstOccurrenceSnoc(rows: seq<Holding>, h: Holding)
    ensures FirstOccurrence(rows + [h]) ==
      if h.ticker in FirstOccurrence(rows) then FirstOccurrence(rows) else FirstOccurrence(rows) + [h.ticker]
  {
    assert (rows + [h])[..|rows + [h]| - 1] == rows;
  }

  /** The loop's test of the portfolio decides whether a new key is added. */
  lemma KeysStep(rows: seq<Holding>, h: Holding)
    ensures FirstOccurrence(rows + [h]) ==
      if h.ticker in Grouped(rows) then FirstOccurrence(rows) else FirstOccurrence(rows) + [h.ticker]
  {
    FirstOccurrenceSnoc(rows, h);
    GroupedKeys(rows);
  }

  /** A ticker no row carries sums to zero. */
  lemma {:induction false} SumsOfAbsentTicker(rows: seq<Holding>, t: string)
    requires forall i :: 0 <= i < |rows| ==> rows[i].ticker != t
    ensures QtySum(rows, t) == 0.0 && BasisSum(rows, t) == 0.0
  {
    if rows != [] {
      SumsOfAbsentTicker(rows[..|rows| - 1], t);
    }
  }

  /** The grouping loop: one entry per raw ticker, quantities and bases summed. */
  method GroupHoldings(holdings: seq<Holding>) returns (portfolio: map<string, Position>, keys: seq<string>)
    ensures keys == FirstOccurrence(holdings)
    ensures portfolio == Grouped(holdings)
  {
    portfolio, keys := map[], [];
    for i := 0 to |holdings|
      invariant keys == FirstOccurrence(holdings[..i])
      invariant portfolio == Grouped(holdings[..i])
    {
      var h := holdings[i];
      ghost var rows := holdings[..i];
      KeysStep(rows, h);
      GroupedSnoc(rows, h);
      portfolio, keys := AddRow(portfolio, keys, h);
      assert portfolio == Grouped(rows + [h]) && keys == FirstOccurrence(rows + [h]);
      assert holdings[..i + 1] == rows + [h];
    }
    assert holdings[..|holdings|] == holdings;
  }

  /** One pass of the grouping loop: a new ticker gets a zero entry and a
      place among the keys, then the row's quantity and basis are added. */
  method AddRow(portfolio: map<string, Position>, keys: seq<string>, h: Holding)
    returns (portfolio': map<string, Position>, keys': seq<string>)
    ensures keys' == if h.ticker in portfolio then keys else keys + [h.ticker]
    ensures portfolio' ==
      var p := if h.ticker in portfolio then portfolio[h.ticker] else Position(0.0, 0.0);
      portfolio[h.ticker := Position(p.qty + h.quantity, p.totalBasis + h.costBasis)]
  {
    portfolio', keys' := portfolio, keys;
    if h.ticker !in portfolio' {
      portfolio' := portfolio'[h.ticker := Position(0.0, 0.0)];
      keys' := keys' + [h.ticker];
    }
    var p := portfolio'[h.ticker];
    portfolio' := portfolio'[h.ticker := Position(p.qty + h.quantity, p.totalBasis + h.costBasis)];
  }

  /** Quantity and basis sums split over any cut of the rows ... */
  lemma {:induction false} SumsAppend(a: seq<Holding>, b: seq<Holding>, t: string)
    ensures QtySum(a + b, t) == QtySum(a, t) + QtySum(b, t)
    ensures BasisSum(a + b, t) == BasisSum(a, t) + BasisSum(b, t)
  {
    if b == [] {
      assert a + b == a;
    } else {
      var b0 := b[..|b| - 1];
      assert (a + b)[..|a + b| - 1] == a + b0;
      SumsAppend(a, b0, t);
    }
  }

  /** ... so the grouped totals do not depend on which account's rows come first. */
  lemma SumsSwap(a: seq<Holding>, b: seq<Holding>, t: string)
    ensures QtySum(a + b, t) == QtySum(b + a, t)
    ensures BasisSum(a + b, t) == BasisSum(b + a, t)
  {
    SumsAppend(a, b, t);
    SumsAppend(b, a, t);
  }

  /** Two BTC lots of 1 and 0.5 with stored bases 30000 and 14000 group to
      1.5 BTC with a basis of 44000: the bases are added as they are. */
  lemma TotalBasisConvention(p1: real, p2: real)
    ensures Grouped([Holding("BTC", 1.0, 30000.0, p1), Holding("BTC", 0.5, 14000.0, p2)])
            == map["BTC" := Position(1.5, 44000.0)]
  {
    var rows := [Holding("BTC", 1.0, 30000.0, p1), Holding("BTC", 0.5, 14000.0, p2)];
    assert rows[..1] == [rows[0]];
    assert rows[..1][..0] == [];
    assert Grouped(rows[..1]) == map["BTC" := Position(1.0, 30000.0)];
  }

  // ---------------------------------------------------------------------------
  // Step 3: search tickers
  // ---------------------------------------------------------------------------

  /** `[TICKER_MAP.get(t, t) for t in raw_tickers if t and t != "UNKNOWN"]` */
  function SearchTickers(keys: seq<string>): (r: seq<string>)
    ensures |r| <= |keys|
    ensures forall s :: s in r ==> Searchable(s)
  {
    if keys == [] then []
    else
      (if Searchable(keys[0]) then SearchSymbolSearchable(keys[0]); [SearchSymbol(keys[0])] else [])
      + SearchTickers(keys[1..])
  }

  /** A symbol is searched iff some searchable key maps to it. */
  lemma {:induction false} SearchTickersMember(keys: seq<string>, s: string)
    ensures s in SearchTickers(keys) <==> exists i :: 0 <= i < |keys| && Searchable(keys[i]) && SearchSymbol(keys[i]) == s
  {
    if keys != [] {
      SearchTickersMember(keys[1..], s);
      assert forall i :: 1 <= i < |keys| ==> keys[i] == keys[1..][i - 1];
      if s in SearchTickers(keys[1..]) {
        var j :| 0 <= j < |keys[1..]| && Searchable(keys[1..][j]) && SearchSymbol(keys[1..][j]) == s;
        assert keys[j + 1] == keys[1..][j];
      }
    }
  }

  /** Keys that are all empty or UNKNOWN give no search ticker. */
  lemma {:induction false} SearchTickersNone(keys: seq<string>)
    requires forall i :: 0 <= i < |keys| ==> !Searchable(keys[i])
    ensures SearchTickers(keys) == []
  {
    if keys != [] {
      assert forall i :: 1 <= i < |keys| ==> keys[1..][i - 1] == keys[i];
      SearchTickersNone(keys[1..]);
    }
  }

  /** The list keeps the order of the keys. */
  lemma {:induction false} SearchTickersAppend(a: seq<string>, b: seq<string>)
    ensures SearchTickers(a + b) == SearchTickers(a) + SearchTickers(b)
  {
    if a == [] {
      assert a + b == b;
    } else {
      assert (a + b)[1..] == a[1..] + b;
      SearchTickersAppend(a[1..], b);
    }
  }

  /** Over duplicate-free keys, exactly one entry per key that is neither empty nor UNKNOWN. */
  lemma {:induction false} SearchTickersCount(keys: seq<string>)
    requires Distinct(keys)
    ensures |SearchTickers(keys)| == |keys| - (if "" in keys then 1 else 0) - (if Unknown in keys then 1 else 0)
  {
    if keys != [] {
      var rest := keys[1..];
      assert Distinct(rest) by {
        forall i, j | 0 <= i < j < |rest| ensures rest[i] != rest[j] {
          assert rest[i] == keys[i + 1] && rest[j] == keys[j + 1];
        }
      }
      SearchTickersCount(rest);
      assert keys[0] !in rest by {
        forall i | 0 <= i < |rest| ensures rest[i] != keys[0] {
          assert rest[i] == keys[i + 1];
        }
      }
      assert keys == [keys[0]] + rest;
      assert "" in keys <==> keys[0] == "" || "" in rest;
      assert Unknown in keys <==> keys[0] == Unknown || Unknown in rest;
    }
  }

  // ---------------------------------------------------------------------------
  // Step 4: prices, gain/loss and the decision matrix
  // ---------------------------------------------------------------------------

  /** The last row of closes the price service returned: a symbol absent from
      the frame is not priced; a present symbol with None is a NaN price. */
  type PriceFrame = map<string, Option<real>>

  /** The live price of a search symbol, None when missing or NaN. */
  function LivePrice(frame: PriceFrame, s: string): Option<real> {
    if s in frame then frame[s] else None
  }

  /** `(total_gain_loss / total_basis) if total_basis > 0 else 0` */
  function PctGainLoss(gain: real, totalBasis: real): real {
    if totalBasis > 0.0 then gain / totalBasis else 0.0
  }

  /** The percentage is the fraction of the basis gained or lost, and 0 when
      there is no positive basis; it has the sign of the gain. */
  lemma PctGainLossMeaning(gain: real, totalBasis: real)
    ensures totalBasis > 0.0 ==> PctGainLoss(gain, totalBasis) * totalBasis == gain
    ensures totalBasis > 0.0 ==> (PctGainLoss(gain, totalBasis) < 0.0 <==> gain < 0.0)
    ensures totalBasis <= 0.0 ==> PctGainLoss(gain, totalBasis) == 0.0
  {
    if totalBasis > 0.0 {
      var pct := gain / totalBasis;
      assert pct * totalBasis == gain;
      if pct < 0.0 {
        assert pct * totalBasis < 0.0;
      } else {
        assert pct * totalBasis >= 0.0;
      }
    }
  }

  /** The three branches of the decision matrix. */
  datatype Decision = Harvest | DownButHolding | Healthy

  function Decide(pct: real, gain: real, cfg: Config): Decision {
    if pct <= cfg.lossThreshold then
      if gain < -HarvestFloor(cfg) then Harvest else DownButHolding
    else Healthy
  }

  /** One evaluated position. */
  datatype Assessment = Assessment(ticker: string, currentValue: real, gainLoss: real, pctGainLoss: real, decision: Decision)

  function Evaluate(ticker: string, pos: Position, price: real, cfg: Config): Assessment {
    var value := pos.qty * price;
    var gain := value - pos.totalBasis;
    var pct := PctGainLoss(gain, pos.totalBasis);
    Assessment(ticker, value, gain, pct, Decide(pct, gain, cfg))
  }

  /** The decision matrix: harvest iff both thresholds are met, "down but
      holding" iff only the percentage is, healthy otherwise. */
  lemma DecisionMatrix(ticker: string, pos: Position, price: real, cfg: Config)
    ensures var a := Evaluate(ticker, pos, price, cfg);
      && a.gainLoss == pos.qty * price - pos.totalBasis
      && (a.decision == Harvest <==> a.pctGainLoss <= cfg.lossThreshold && a.gainLoss < -HarvestFloor(cfg))
      && (a.decision == DownButHolding <==> a.pctGainLoss <= cfg.lossThreshold && a.gainLoss >= -HarvestFloor(cfg))
      && (a.decision == Healthy <==> a.pctGainLoss > cfg.lossThreshold)
  {
  }

  /** With a negative loss threshold a position with zero or negative basis is
      always healthy, hence never a harvest candidate. */
  lemma NonPositiveBasisIsHealthy(ticker: string, pos: Position, price: real, cfg: Config)
    requires pos.totalBasis <= 0.0 && cfg.lossThreshold < 0.0
    ensures Evaluate(ticker, pos, price, cfg).decision == Healthy
  {
  }

  /** With a negative loss threshold, only positions that lose money leave "healthy". */
  lemma DownMeansLoss(ticker: string, pos: Position, price: real, cfg: Config)
    requires cfg.lossThreshold < 0.0
    ensures Evaluate(ticker, pos, price, cfg).decision != Healthy ==> Evaluate(ticker, pos, price, cfg).gainLoss < 0.0
  {
    var a := Evaluate(ticker, pos, price, cfg);
    PctGainLossMeaning(a.gainLoss, pos.totalBasis);
  }

  /** 20 units bought for 2000 and now worth 95 each: exactly -5% and exactly
      $100 lost, which is "down but holding" since the floor comparison is strict. */
  lemma BoundaryLossIsHolding()
    ensures Evaluate("X", Position(20.0, 2000.0), 95.0, DefaultConfig)
            == Assessment("X", 1900.0, -100.0, -0.05, DownButHolding)
  {
  }

  /** 10 units bought for 1000 in total, now at 80: a loss of 200, -20%, harvest. */
  lemma TwentyPercentLossIsHarvest()
    ensures Evaluate("AAA", Position(10.0, 1000.0), 80.0, DefaultConfig)
            == Assessment("AAA", 800.0, -200.0, -0.2, Harvest)
  {
  }

  /** One iteration of the per-ticker loop: None when the ticker is skipped. */
  function Assess(st: string, portfolio: map<string, Position>, frame: PriceFrame, cfg: Config): (r: Option<Assessment>)
    ensures r.Some? ==> r.value.ticker == OriginalTicker(st) && OriginalTicker(st) in portfolio && LivePrice(frame, st).Some?
    ensures OriginalTicker(st) in portfolio && LivePrice(frame, st).Some? ==>
      r == Some(Evaluate(OriginalTicker(st), portfolio[OriginalTicker(st)], LivePrice(frame, st).value, cfg))
  {
    var original := OriginalTicker(st);
    if original !in portfolio then None
    else match LivePrice(frame, st)
      case None => None
      case Some(price) => Some(Evaluate(original, portfolio[original], price, cfg))
  }

  /** Everything the loop evaluates, in search-ticker order. */
  function Scan(sts: seq<string>, portfolio: map<string, Position>, frame: PriceFrame, cfg: Config): seq<Assessment> {
    if sts == [] then []
    else
      Scan(sts[..|sts| - 1], portfolio, frame, cfg)
      + (match Assess(sts[|sts| - 1], portfolio, frame, cfg) case None => [] case Some(a) => [a])
  }

  /** `{'ticker': ..., 'loss_amount': ..., 'pct_loss': ...}` */
  datatype Opportunity = Opportunity(ticker: string, lossAmount: real, pctLoss: real)

  /** The harvest decisions, as the loop appends them. */
  function Opportunities(assessed: seq<Assessment>): seq<Opportunity> {
    if assessed == [] then []
    else
      var a := assessed[|assessed| - 1];
      Opportunities(assessed[..|assessed| - 1])
      + (if a.decision == Harvest then [Opportunity(a.ticker, a.gainLoss, a.pctGainLoss * 100.0)] else [])
  }

  /** Steps 4 and 5 for one priced position: the gain/loss arithmetic and the decision matrix. */
  method EvaluatePosition(ticker: string, position: Position, livePrice: real, cfg: Config) returns (a: Assessment)
    ensures a == Evaluate(ticker, position, livePrice, cfg)
  {
    var value := position.qty * livePrice;
    var gain := value - position.totalBasis;
    var pct := PctGainLoss(gain, position.totalBasis);
    if pct <= cfg.lossThreshold {
      if gain < -(cfg.minHarvestAmount / 10.0) {
        a := Assessment(ticker, value, gain, pct, Harvest);
      } else {
        a := Assessment(ticker, value, gain, pct, DownButHolding);
      }
    } else {
      a := Assessment(ticker, value, gain, pct, Healthy);
    }
  }

  /** The per-ticker loop of step 4: skipped tickers add nothing, harvest
      decisions are appended in search-ticker order. */
  method ScanPortfolio(searchTickers: seq<string>, portfolio: map<string, Position>, frame: PriceFrame, cfg: Config)
    returns (assessed: seq<Assessment>, opportunities: seq<Opportunity>)
    ensures assessed == Scan(searchTickers, portfolio, frame, cfg)
    ensures opportunities == Opportunities(assessed)
  {
    assessed, opportunities := [], [];
    for i := 0 to |searchTickers|
      invariant assessed == Scan(searchTickers[..i], portfolio, frame, cfg)
      invariant opportunities == Opportunities(assessed)
    {
      var st := searchTickers[i];
      assert searchTickers[..i + 1] == searchTickers[..i] + [st];
      ScanSnoc(searchTickers[..i], st, portfolio, frame, cfg);
      var original := OriginalTicker(st);
      if original !in portfolio {
        assert Scan(searchTickers[..i + 1], portfolio, frame, cfg) == assessed;
        continue;
      }
      var position := portfolio[original];
      var livePrice := LivePrice(frame, st);
      if livePrice.None? {
        assert Scan(searchTickers[..i + 1], portfolio, frame, cfg) == assessed;
        continue;
      }
      var a := EvaluatePosition(original, position, livePrice.value, cfg);
      assert Scan(searchTickers[..i + 1], portfolio, frame, cfg) == assessed + [a] by {
        assert Assess(st, portfolio, frame, cfg) == Some(a);
      }
      OpportunitiesSnoc(assessed, a);
      if a.decision == Harvest {
        opportunities := opportunities + [Opportunity(original, a.gainLoss, a.pctGainLoss * 100.0)];
      }
      assessed := assessed + [a];
    }
    assert searchTickers[..|searchTickers|] == searchTickers;
  }

  lemma ScanSnoc(sts: seq<string>, st: string, portfolio: map<string, Position>, frame: PriceFrame, cfg: Config)
    ensures Scan(sts + [st], portfolio, frame, cfg)
         == Scan(sts, portfolio, frame, cfg) + (match Assess(st, portfolio, frame, cfg) case None => [] case Some(a) => [a])
  {
    assert (sts + [st])[..|sts|] == sts;
  }

  lemma OpportunitiesSnoc(assessed: seq<Assessment>, a: Assessment)
    ensures Opportunities(assessed + [a])
         == Opportunities(assessed) + (if a.decision == Harvest then [Opportunity(a.ticker, a.gainLoss, a.pctGainLoss * 100.0)] else [])
  {
    assert (assessed + [a])[..|assessed|] == assessed;
  }

  lemma {:induction false} ScanAppend(a: seq<string>, b: seq<string>, portfolio: map<string, Position>, frame: PriceFrame, cfg: Config)
    ensures Scan(a + b, portfolio, frame, cfg) == Scan(a, portfolio, frame, cfg) + Scan(b, portfolio, frame, cfg)
  {
    if b == [] {
      assert a + b == a;
    } else {
      var b0 := b[..|b| - 1];
      assert (a + b)[..|a + b| - 1] == a + b0;
      ScanAppend(a, b0, portfolio, frame, cfg);
    }
  }

  /** A position whose price is missing or NaN produces nothing, and the
      positions around it are evaluated exactly as without it. */
  lemma MissingPriceSkipped(a: seq<string>, st: string, b: seq<string>, portfolio: map<string, Position>, frame: PriceFrame, cfg: Config)
    requires LivePrice(frame, st).None?
    ensures Scan(a + [st] + b, portfolio, frame, cfg) == Scan(a, portfolio, frame, cfg) + Scan(b, portfolio, frame, cfg)
  {
    ScanAppend(a + [st], b, portfolio, frame, cfg);
    ScanAppend(a, [st], portfolio, frame, cfg);
    assert Scan([st], portfolio, frame, cfg) == [] by {
      assert [st][..0] == [];
      assert Assess(st, portfolio, frame, cfg).None?;
    }
  }

  lemma {:induction false} OpportunitiesAppend(a: seq<Assessment>, b: seq<Assessment>)
    ensures Opportunities(a + b) == Opportunities(a) + Opportunities(b)
  {
    if b == [] {
      assert a + b == a;
    } else {
      var b0 := b[..|b| - 1];
      assert (a + b)[..|a + b| - 1] == a + b0;
      OpportunitiesAppend(a, b0);
    }
  }

  /** An opportunity is recorded iff some evaluated position was classified harvest. */
  lemma {:induction false} OpportunityMember(assessed: seq<Assessment>, o: Opportunity)
    ensures o in Opportunities(assessed) <==>
      exists i :: 0 <= i < |assessed| && assessed[i].decision == Harvest
        && o == Opportunity(assessed[i].ticker, assessed[i].gainLoss, assessed[i].pctGainLoss * 100.0)
  {
    if assessed != [] {
      var prefix := assessed[..|assessed| - 1];
      OpportunityMember(prefix, o);
      assert forall i :: 0 <= i < |prefix| ==> prefix[i] == assessed[i];
    }
  }

  /** Conversely, a held and priced search ticker whose evaluation meets both
      thresholds is found: its opportunity is in the list. */
  lemma HarvestFound(sts: seq<string>, i: int, portfolio: map<string, Position>, frame: PriceFrame, cfg: Config)
    requires 0 <= i < |sts|
    requires OriginalTicker(sts[i]) in portfolio && LivePrice(frame, sts[i]).Some?
    requires var a := Evaluate(OriginalTicker(sts[i]), portfolio[OriginalTicker(sts[i])], LivePrice(frame, sts[i]).value, cfg);
      a.pctGainLoss <= cfg.lossThreshold && a.gainLoss < -HarvestFloor(cfg)
    ensures var a := Evaluate(OriginalTicker(sts[i]), portfolio[OriginalTicker(sts[i])], LivePrice(frame, sts[i]).value, cfg);
      Opportunity(a.ticker, a.gainLoss, a.pctGainLoss * 100.0) in Opportunities(Scan(sts, portfolio, frame, cfg))
  {
    var st := sts[i];
    var a := Evaluate(OriginalTicker(st), portfolio[OriginalTicker(st)], LivePrice(frame, st).value, cfg);
    assert a.decision == Harvest;
    HarvestAt(sts, i, a, portfolio, frame, cfg);
  }

  /** A search ticker assessed as harvest contributes its opportunity. */
  lemma HarvestAt(sts: seq<string>, i: int, a: Assessment, portfolio: map<string, Position>, frame: PriceFrame, cfg: Config)
    requires 0 <= i < |sts|
    requires Assess(sts[i], portfolio, frame, cfg) == Some(a) && a.decision == Harvest
    ensures Opportunity(a.ticker, a.gainLoss, a.pctGainLoss * 100.0) in Opportunities(Scan(sts, portfolio, frame, cfg))
  {
    var pre, post := sts[..i], sts[i + 1..];
    assert sts == (pre + [sts[i]]) + post;
    var before, after := Scan(pre, portfolio, frame, cfg), Scan(post, portfolio, frame, cfg);
    ScanAround(pre, sts[i], post, portfolio, frame, cfg);
    OpportunitiesAppend(before + [a], after);
    OpportunitiesSnoc(before, a);
  }

  /** The scan of a list split around one search ticker. */
  lemma ScanAround(pre: seq<string>, st: string, post: seq<string>, portfolio: map<string, Position>, frame: PriceFrame, cfg: Config)
    requires Assess(st, portfolio, frame, cfg).Some?
    ensures Scan((pre + [st]) + post, portfolio, frame, cfg)
         == (Scan(pre, portfolio, frame, cfg) + [Assess(st, portfolio, frame, cfg).value]) + Scan(post, portfolio, frame, cfg)
  {
    ScanAppend(pre + [st], post, portfolio, frame, cfg);
    ScanSnoc(pre, st, portfolio, frame, cfg);
  }

  /** Every candidate met both thresholds: its loss is below the negated floor
      and its percentage at or below the loss threshold. */
  lemma {:induction false} CandidatesMeetThresholds(sts: seq<string>, portfolio: map<string, Position>, frame: PriceFrame, cfg: Config)
    ensures forall o :: o in Opportunities(Scan(sts, portfolio, frame, cfg)) ==>
      o.lossAmount < -HarvestFloor(cfg) && o.pctLoss <= cfg.lossThreshold * 100.0
  {
    if sts != [] {
      var s0 := sts[..|sts| - 1];
      var st := sts[|sts| - 1];
      assert sts == s0 + [st];
      CandidatesMeetThresholds(s0, portfolio, frame, cfg);
      ScanSnoc(s0, st, portfolio, frame, cfg);
      var prev := Scan(s0, portfolio, frame, cfg);
      match Assess(st, portfolio, frame, cfg)
      case None =>
        assert Scan(sts, portfolio, frame, cfg) == prev;
      case Some(a) =>
        assert Scan(sts, portfolio, frame, cfg) == prev + [a];
        OpportunitiesSnoc(prev, a);
        var original := OriginalTicker(st);
        assert a == Evaluate(original, portfolio[original], LivePrice(frame, st).value, cfg);
        assert a.decision == Decide(a.pctGainLoss, a.gainLoss, cfg);
    }
  }

  // ---------------------------------------------------------------------------
  // Step 6: report and audit log
  // ---------------------------------------------------------------------------

  /** One printed recommendation: the ticker, the loss as a positive amount, and the proxy advice. */
  datatype Recommendation = Recommendation(ticker: string, loss: real, proxyAdvice: string)

  function AlertDetails(ticker: string, advice: string): string {
    "Found loss in " + ticker + ". Suggested: " + advice
  }

  /** The tickers passed to the proxy adviser, one call per opportunity. */
  function AdviserCalls(opps: seq<Opportunity>): seq<string> {
    if opps == [] then [] else AdviserCalls(opps[..|opps| - 1]) + [opps[|opps| - 1].ticker]
  }

  function Recommendations(opps: seq<Opportunity>, advise: string -> string): seq<Recommendation> {
    if opps == [] then []
    else
      var o := opps[|opps| - 1];
      Recommendations(opps[..|opps| - 1], advise) + [Recommendation(o.ticker, Abs(o.lossAmount), advise(o.ticker))]
  }

  /** The `HARVEST_ALERT` entries the report loop writes. */
  function HarvestAlerts(opps: seq<Opportunity>, advise: string -> string): seq<LogEntry> {
    if opps == [] then []
    else
      var o := opps[|opps| - 1];
      HarvestAlerts(opps[..|opps| - 1], advise) + [LogEntry("TAX_SCOUT", "HARVEST_ALERT", AlertDetails(o.ticker, advise(o.ticker)))]
  }

  /** The report loop. `advise` is the proxy adviser: its text is opaque,
      error text included. */
  method Report(opps: seq<Opportunity>, advise: string -> string, vault: AuditLog)
    returns (recommendations: seq<Recommendation>, adviserCalls: seq<string>)
    modifies vault
    ensures recommendations == Recommendations(opps, advise)
    ensures adviserCalls == AdviserCalls(opps)
    ensures vault.entries == old(vault.entries) + HarvestAlerts(opps, advise)
  {
    recommendations, adviserCalls := [], [];
    for i := 0 to |opps|
      invariant recommendations == Recommendations(opps[..i], advise)
      invariant adviserCalls == AdviserCalls(opps[..i])
      invariant vault.entries == old(vault.entries) + HarvestAlerts(opps[..i], advise)
    {
      var ticker := opps[i].ticker;
      var loss := Abs(opps[i].lossAmount);
      var proxyAdvice := advise(ticker);
      adviserCalls := adviserCalls + [ticker];
      recommendations := recommendations + [Recommendation(ticker, loss, proxyAdvice)];
      vault.LogAction("TAX_SCOUT", "HARVEST_ALERT", AlertDetails(ticker, proxyAdvice));
      assert opps[..i + 1][..i] == opps[..i];
    }
    assert opps[..|opps|] == opps;
  }

  /** One adviser call and one audit entry per opportunity, in list order,
      and the reported loss is the absolute loss amount. */
  lemma ReportPerOpportunity(opps: seq<Opportunity>, advise: string -> string)
    ensures |AdviserCalls(opps)| == |opps| && |HarvestAlerts(opps, advise)| == |opps|
    ensures |Recommendations(opps, advise)| == |opps|
    ensures forall i :: 0 <= i < |opps| ==>
      && AdviserCalls(opps)[i] == opps[i].ticker
      && HarvestAlerts(opps, advise)[i] == LogEntry("TAX_SCOUT", "HARVEST_ALERT", AlertDetails(opps[i].ticker, advise(opps[i].ticker)))
      && Recommendations(opps, advise)[i] == Recommendation(opps[i].ticker, Abs(opps[i].lossAmount), advise(opps[i].ticker))
  {
    AdviserCallsAt(opps);
    HarvestAlertsAt(opps, advise);
    RecommendationsAt(opps, advise);
  }

  lemma {:induction false} AdviserCallsAt(opps: seq<Opportunity>)
    ensures |AdviserCalls(opps)| == |opps|
    ensures forall i :: 0 <= i < |opps| ==> AdviserCalls(opps)[i] == opps[i].ticker
  {
    if opps != [] {
      var prefix := opps[..|opps| - 1];
      AdviserCallsAt(prefix);
      assert forall i :: 0 <= i < |prefix| ==> prefix[i] == opps[i];
    }
  }

  lemma {:induction false} HarvestAlertsAt(opps: seq<Opportunity>, advise: string -> string)
    ensures |HarvestAlerts(opps, advise)| == |opps|
    ensures forall i :: 0 <= i < |opps| ==>
      HarvestAlerts(opps, advise)[i] == LogEntry("TAX_SCOUT", "HARVEST_ALERT", AlertDetails(opps[i].ticker, advise(opps[i].ticker)))
  {
    if opps != [] {
      var prefix := opps[..|opps| - 1];
      HarvestAlertsAt(prefix, advise);
      assert forall i :: 0 <= i < |prefix| ==> prefix[i] == opps[i];
    }
  }

  lemma {:induction false} RecommendationsAt(opps: seq<Opportunity>, advise: string -> string)
    ensures |Recommendations(opps, advise)| == |opps|
    ensures forall i :: 0 <= i < |opps| ==>
      Recommendations(opps, advise)[i] == Recommendation(opps[i].ticker, Abs(opps[i].lossAmount), advise(opps[i].ticker))
  {
    if opps != [] {
      var prefix := opps[..|opps| - 1];
      RecommendationsAt(prefix, advise);
      assert forall i :: 0 <= i < |prefix| ==> prefix[i] == opps[i];
    }
  }

  // ---------------------------------------------------------------------------
  // The whole run
  // ---------------------------------------------------------------------------

  /** Where the run stopped: the early returns, or after the report. */
  datatype ScoutStatus = NoHoldings | NoValidTickers | MarketDataError | Completed

  /** What a run observably did: the price downloads it requested, the
      positions it evaluated, the opportunities, the printed recommendations
      and the tickers it asked the proxy adviser about. */
  datatype ScoutRun = ScoutRun(
    status: ScoutStatus,
    downloads: seq<seq<string>>,
    assessed: seq<Assessment>,
    opportunities: seq<Opportunity>,
    recommendations: seq<Recommendation>,
    adviserCalls: seq<string>)

  /** `run_tax_scout` as a function of its inputs. `download` is the price
      service: None when it raises. */
  function ScoutRunOf(holdings: seq<Holding>, download: seq<string> -> Option<PriceFrame>, cfg: Config, advise: string -> string): ScoutRun {
    if holdings == [] then ScoutRun(NoHoldings, [], [], [], [], [])
    else
      var portfolio := Grouped(holdings);
      var search := SearchTickers(FirstOccurrence(holdings));
      if search == [] then ScoutRun(NoValidTickers, [], [], [], [], [])
      else
        var request := search + ["SPY"];
        match download(request)
        case None => ScoutRun(MarketDataError, [request], [], [], [], [])
        case Some(frame) =>
          var assessed := Scan(search, portfolio, frame, cfg);
          var opps := Opportunities(assessed);
          ScoutRun(Completed, [request], assessed, opps, Recommendations(opps, advise), AdviserCalls(opps))
  }

  method RunTaxScout(holdings: seq<Holding>, download: seq<string> -> Option<PriceFrame>, cfg: Config,
                     advise: string -> string, vault: AuditLog)
    returns (run: ScoutRun)
    modifies vault
    ensures run == ScoutRunOf(holdings, download, cfg, advise)
    ensures vault.entries == old(vault.entries) + HarvestAlerts(run.opportunities, advise)
  {
    if holdings == [] {
      return ScoutRun(NoHoldings, [], [], [], [], []);
    }
    var portfolio, rawTickers := GroupHoldings(holdings);
    var searchTickers := SearchTickers(rawTickers);
    if searchTickers == [] {
      return ScoutRun(NoValidTickers, [], [], [], [], []);
    }
    var request := searchTickers + ["SPY"];
    var payload := download(request);
    if payload.None? {
      return ScoutRun(MarketDataError, [request], [], [], [], []);
    }
    var assessed, opportunities := ScanPortfolio(searchTickers, portfolio, payload.value, cfg);
    var recommendations, adviserCalls := Report(opportunities, advise, vault);
    run := ScoutRun(Completed, [request], assessed, opportunities, recommendations, adviserCalls);
  }

  // ---------------------------------------------------------------------------
  // Properties of a whole run
  // ---------------------------------------------------------------------------

  /** With no holdings the run stops before any download and logs nothing. */
  lemma NoHoldingsNoWork(download: seq<string> -> Option<PriceFrame>, cfg: Config, advise: string -> string)
    ensures var run := ScoutRunOf([], download, cfg, advise);
      run.status == NoHoldings && run.downloads == [] && run.opportunities == [] && HarvestAlerts(run.opportunities, advise) == []
  {
  }

  /** When every held ticker is empty or UNKNOWN the run stops before any
      download, with no opportunities and no log entries. */
  lemma NoSearchableTickerNoWork(holdings: seq<Holding>, download: seq<string> -> Option<PriceFrame>, cfg: Config, advise: string -> string)
    requires holdings != []
    requires forall i :: 0 <= i < |holdings| ==> !Searchable(holdings[i].ticker)
    ensures var run := ScoutRunOf(holdings, download, cfg, advise);
      run.status == NoValidTickers && run.downloads == [] && run.adviserCalls == []
      && HarvestAlerts(run.opportunities, advise) == []
  {
    var keys := FirstOccurrence(holdings);
    FirstOccurrenceKeys(holdings);
    assert forall i :: 0 <= i < |keys| ==> keys[i] in keys;
    SearchTickersNone(keys);
  }

  /** A run that reaches the price service asks for every search ticker and SPY, once. */
  lemma DownloadRequest(holdings: seq<Holding>, download: seq<string> -> Option<PriceFrame>, cfg: Config, advise: string -> string)
    ensures var run := ScoutRunOf(holdings, download, cfg, advise);
      (run.status == MarketDataError || run.status == Completed) <==> |run.downloads| == 1
    ensures var run := ScoutRunOf(holdings, download, cfg, advise);
      |run.downloads| == 1 ==> run.downloads[0] == SearchTickers(FirstOccurrence(holdings)) + ["SPY"]
    ensures |ScoutRunOf(holdings, download, cfg, advise).downloads| <= 1
  {
  }

  lemma RunOpportunitiesMeetThresholds(holdings: seq<Holding>, download: seq<string> -> Option<PriceFrame>, cfg: Config, advise: string -> string)
    ensures forall o :: o in ScoutRunOf(holdings, download, cfg, advise).opportunities ==>
      o.lossAmount < -HarvestFloor(cfg) && o.pctLoss <= cfg.lossThreshold * 100.0
    ensures ScoutRunOf(holdings, download, cfg, advise).status == MarketDataError ==>
      ScoutRunOf(holdings, download, cfg, advise).opportunities == []
  {
    var run := ScoutRunOf(holdings, download, cfg, advise);
    if run.status == Completed {
      var search := SearchTickers(FirstOccurrence(holdings));
      var frame := download(search + ["SPY"]).value;
      assert run.opportunities == Opportunities(Scan(search, Grouped(holdings), frame, cfg));
      CandidatesMeetThresholds(search, Grouped(holdings), frame, cfg);
    } else {
      assert run.opportunities == [];
    }
  }

  /** Every opportunity of a run met both thresholds, the reported loss is the
      loss amount made positive (so above the floor), and the adviser is called
      once per opportunity in order. */
  lemma RunCandidates(holdings: seq<Holding>, download: seq<string> -> Option<PriceFrame>, cfg: Config, advise: string -> string)
    requires cfg.minHarvestAmount >= 0.0
    ensures var run := ScoutRunOf(holdings, download, cfg, advise);
      && |run.adviserCalls| == |run.opportunities| == |run.recommendations|
      && (forall i :: 0 <= i < |run.opportunities| ==>
            && run.adviserCalls[i] == run.opportunities[i].ticker
            && run.opportunities[i].lossAmount < -HarvestFloor(cfg)
            && run.opportunities[i].pctLoss <= cfg.lossThreshold * 100.0
            && run.recommendations[i].loss == -run.opportunities[i].lossAmount)
  {
    var run := ScoutRunOf(holdings, download, cfg, advise);
    assert run.adviserCalls == AdviserCalls(run.opportunities);
    assert run.recommendations == Recommendations(run.opportunities, advise);
    RunOpportunitiesMeetThresholds(holdings, download, cfg, advise);
    ReportedCandidates(run.opportunities, advise, cfg);
  }

  /** The report of candidates that met both thresholds: one adviser call and
      one recommendation per candidate, each loss reported as a positive amount. */
  lemma ReportedCandidates(opps: seq<Opportunity>, advise: string -> string, cfg: Config)
    requires cfg.minHarvestAmount >= 0.0
    requires forall o :: o in opps ==> o.lossAmount < -HarvestFloor(cfg) && o.pctLoss <= cfg.lossThreshold * 100.0
    ensures |AdviserCalls(opps)| == |opps| == |Recommendations(opps, advise)|
    ensures forall i :: 0 <= i < |opps| ==>
      && AdviserCalls(opps)[i] == opps[i].ticker
      && opps[i].lossAmount < -HarvestFloor(cfg)
      && opps[i].pctLoss <= cfg.lossThreshold * 100.0
      && Recommendations(opps, advise)[i].loss == -opps[i].lossAmount
  {
    ReportPerOpportunity(opps, advise);
    forall i | 0 <= i < |opps|
      ensures opps[i].lossAmount < -HarvestFloor(cfg) && opps[i].pctLoss <= cfg.lossThreshold * 100.0
      ensures Recommendations(opps, advise)[i].loss == -opps[i].lossAmount
    {
      assert opps[i] in opps;
    }
  }

  /** A raw row that already carries a mapped symbol ('BTC-USD') is looked up
      as 'BTC'; without a 'BTC' row it is never evaluated, whatever its price. */
  lemma MappedSymbolRowSkipped(q: real, b: real, p: real, download: seq<string> -> Option<PriceFrame>, cfg: Config, advise: string -> string)
    ensures var run := ScoutRunOf([Holding("BTC-USD", q, b, p)], download, cfg, advise);
      run.assessed == [] && run.opportunities == [] && run.adviserCalls == []
  {
    var rows := [Holding("BTC-USD", q, b, p)];
    assert rows[..0] == [];
    assert FirstOccurrence(rows) == ["BTC-USD"];
    MappedSymbolReadsAsAlias();
    var search := SearchTickers(["BTC-USD"]);
    assert search == ["BTC-USD"];
    assert search[..0] == [];
    assert "BTC" !in Grouped(rows);
    var run := ScoutRunOf(rows, download, cfg, advise);
    if run.status == Completed {
      var frame := download(search + ["SPY"]).value;
      assert Assess("BTC-USD", Grouped(rows), frame, cfg).None?;
      assert run.assessed == Scan(search, Grouped(rows), frame, cfg) == [];
    }
  }

  /** A raw `BTC-USD` row held next to a `BTC` row is never evaluated itself;
      instead BTC's position is evaluated a second time in its place, so a
      harvest is reported, advised on and logged twice. */
  lemma AliasRowDuplicatesHeldTicker(rows: seq<Holding>, download: seq<string> -> Option<PriceFrame>, cfg: Config, advise: string -> string,
                                     frame: PriceFrame, price: real, a: Assessment)
    requires |rows| == 2 && rows[0].ticker == "BTC" && rows[1].ticker == "BTC-USD"
    requires download(["BTC-USD", "BTC-USD", "SPY"]) == Some(frame)
    requires LivePrice(frame, "BTC-USD") == Some(price)
    requires a == Evaluate("BTC", Position(rows[0].quantity, rows[0].costBasis), price, cfg)
    ensures var run := ScoutRunOf(rows, download, cfg, advise);
      var o := Opportunity("BTC", a.gainLoss, a.pctGainLoss * 100.0);
      var e := LogEntry("TAX_SCOUT", "HARVEST_ALERT", AlertDetails("BTC", advise("BTC")));
      && run.status == Completed
      && run.assessed == [a, a]
      && (a.decision == Harvest ==>
            && run.opportunities == [o, o]
            && run.adviserCalls == ["BTC", "BTC"]
            && HarvestAlerts(run.opportunities, advise) == [e, e])
      && (a.decision != Harvest ==> run.opportunities == [])
  {
    assert a.ticker == "BTC";
    AliasRowAssessedTwice(rows, download, cfg, advise, frame, a);
    RunReportsTwice(ScoutRunOf(rows, download, cfg, advise), a, "BTC", advise);
  }

  /** A completed run that assessed the same position twice reports, advises
      on and logs it twice when it is a harvest, and nothing otherwise. */
  lemma RunReportsTwice(run: ScoutRun, a: Assessment, t: string, advise: string -> string)
    requires a.ticker == t
    requires run.assessed == [a, a] && run.opportunities == Opportunities([a, a])
    requires run.adviserCalls == AdviserCalls(run.opportunities)
    ensures var o := Opportunity(t, a.gainLoss, a.pctGainLoss * 100.0);
      var e := LogEntry("TAX_SCOUT", "HARVEST_ALERT", AlertDetails(t, advise(t)));
      && (a.decision == Harvest ==>
            && run.opportunities == [o, o]
            && run.adviserCalls == [t, t]
            && HarvestAlerts(run.opportunities, advise) == [e, e])
      && (a.decision != Harvest ==> run.opportunities == [])
  {
    ReportTwice(a, advise);
    if a.decision == Harvest {
      var e := LogEntry("TAX_SCOUT", "HARVEST_ALERT", AlertDetails(t, advise(t)));
      assert [e] + [e] == [e, e];
    }
  }

  /** The run over (BTC, BTC-USD) completes and assesses BTC's lot twice. */
  lemma AliasRowAssessedTwice(rows: seq<Holding>, download: seq<string> -> Option<PriceFrame>, cfg: Config, advise: string -> string,
                              frame: PriceFrame, a: Assessment)
    requires |rows| == 2 && rows[0].ticker == "BTC" && rows[1].ticker == "BTC-USD"
    requires download(["BTC-USD", "BTC-USD", "SPY"]) == Some(frame)
    requires LivePrice(frame, "BTC-USD").Some?
    requires a == Evaluate("BTC", Position(rows[0].quantity, rows[0].costBasis), LivePrice(frame, "BTC-USD").value, cfg)
    ensures var run := ScoutRunOf(rows, download, cfg, advise);
      && run.status == Completed
      && run.assessed == [a, a]
      && run.opportunities == Opportunities([a, a])
      && run.adviserCalls == AdviserCalls(run.opportunities)
  {
    AliasRowGrouping(rows);
    assert SearchTickers(FirstOccurrence(rows)) + ["SPY"] == ["BTC-USD", "BTC-USD", "SPY"];
    CompletedRun(rows, download, cfg, advise, frame);
    MappedSymbolReadsAsAlias();
    assert Assess("BTC-USD", Grouped(rows), frame, cfg) == Some(a);
    ScanTwice("BTC-USD", Grouped(rows), frame, cfg);
  }

  /** Grouping (BTC, BTC-USD) keeps BTC's own lot; both keys search as BTC-USD. */
  lemma AliasRowGrouping(rows: seq<Holding>)
    requires |rows| == 2 && rows[0].ticker == "BTC" && rows[1].ticker == "BTC-USD"
    ensures FirstOccurrence(rows) == ["BTC", "BTC-USD"]
    ensures "BTC" in Grouped(rows) && Grouped(rows)["BTC"] == Position(rows[0].quantity, rows[0].costBasis)
    ensures SearchTickers(FirstOccurrence(rows)) == ["BTC-USD", "BTC-USD"]
  {
    assert rows[..1] == [rows[0]];
    assert rows[..1][..0] == [];
    assert Grouped(rows[..1]) == map["BTC" := Position(rows[0].quantity, rows[0].costBasis)];
    var keys := ["BTC", "BTC-USD"];
    assert keys[1..][1..] == [];
    MappedSymbolReadsAsAlias();
  }

  /** A search ticker listed twice is assessed twice, identically. */
  lemma ScanTwice(st: string, portfolio: map<string, Position>, frame: PriceFrame, cfg: Config)
    requires Assess(st, portfolio, frame, cfg).Some?
    ensures Scan([st, st], portfolio, frame, cfg) == [Assess(st, portfolio, frame, cfg).value, Assess(st, portfolio, frame, cfg).value]
  {
    ScanSnoc([], st, portfolio, frame, cfg);
    ScanSnoc([st], st, portfolio, frame, cfg);
    assert [] + [st] == [st] && [st] + [st] == [st, st];
  }

  /** A run whose download succeeds completes with the scan of that frame. */
  lemma CompletedRun(holdings: seq<Holding>, download: seq<string> -> Option<PriceFrame>, cfg: Config, advise: string -> string, frame: PriceFrame)
    requires holdings != [] && SearchTickers(FirstOccurrence(holdings)) != []
    requires download(SearchTickers(FirstOccurrence(holdings)) + ["SPY"]) == Some(frame)
    ensures var run := ScoutRunOf(holdings, download, cfg, advise);
      && run.status == Completed
      && run.assessed == Scan(SearchTickers(FirstOccurrence(holdings)), Grouped(holdings), frame, cfg)
      && run.opportunities == Opportunities(run.assessed)
      && run.adviserCalls == AdviserCalls(run.opportunities)
  {
  }

  /** The same assessment twice gives its opportunity, its adviser call and
      its alert twice, or nothing when it is not a harvest. */
  lemma ReportTwice(a: Assessment, advise: string -> string)
    ensures var o := Opportunity(a.ticker, a.gainLoss, a.pctGainLoss * 100.0);
      && (a.decision == Harvest ==>
            && Opportunities([a, a]) == [o, o]
            && AdviserCalls([o, o]) == [a.ticker, a.ticker]
            && HarvestAlerts([o, o], advise) == [LogEntry("TAX_SCOUT", "HARVEST_ALERT", AlertDetails(a.ticker, advise(a.ticker)))] + [LogEntry("TAX_SCOUT", "HARVEST_ALERT", AlertDetails(a.ticker, advise(a.ticker)))])
      && (a.decision != Harvest ==> Opportunities([a, a]) == [])
  {
    OpportunitiesSnoc([], a);
    OpportunitiesSnoc([a], a);
    assert [] + [a] == [a] && [a] + [a] == [a, a];
    var o := Opportunity(a.ticker, a.gainLoss, a.pctGainLoss * 100.0);
    AdviserCallsAt([o, o]);
    HarvestAlertsAt([o, o], advise);
  }
}

/** The archived Alpha Narrator (`run_narrator`): pick the held tickers, take
    each one's last two non-NaN closes, and for every move at or above the
    volatility threshold fetch the top three headlines; when there are any,
    ask for an explanation and write one audit entry. */
module Narrator {
  import opened Tickers
  import opened Vault

  /** VOLATILITY_THRESHOLD: 0.00, so every evaluated move triggers. */
  const VolatilityThreshold: real := 0.0

  // ---------------------------------------------------------------------------
  // Step 1: ticker selection
  // ---------------------------------------------------------------------------

  /** `set([h[0] for h in holdings if h[0]])` */
  function ActiveTickerSet(holdings: seq<Holding>): (r: set<string>)
    ensures forall t :: t in r <==> t != "" && exists i :: 0 <= i < |holdings| && holdings[i].ticker == t
  {
    set i | 0 <= i < |holdings| && holdings[i].ticker != "" :: holdings[i].ticker
  }

  /** `list(set(...))`: every active ticker once, in an order the model leaves open. */
  method ListActiveTickers(holdings: seq<Holding>) returns (active: seq<string>)
    ensures Distinct(active)
    ensures forall t :: t in active <==> t in ActiveTickerSet(holdings)
  {
    var remaining := ActiveTickerSet(holdings);
    active := [];
    while remaining != {}
      invariant Distinct(active)
      invariant forall t :: t in active ==> t !in remaining
      invariant forall t :: t in active || t in remaining <==> t in ActiveTickerSet(holdings)
      decreases remaining
    {
      var t :| t in remaining;
      active := active + [t];
      remaining := remaining - {t};
    }
  }

  /** `[TICKER_MAP.get(t, t) for t in active_tickers if t != "UNKNOWN"]` */
  function NarratorSearchTickers(active: seq<string>): (r: seq<string>)
    ensures |r| <= |active|
  {
    if active == [] then []
    else (if active[0] != Unknown then [SearchSymbol(active[0])] else []) + NarratorSearchTickers(active[1..])
  }

  /** A symbol is checked iff some active ticker other than UNKNOWN maps to it. */
  lemma {:induction false} NarratorSearchMember(active: seq<string>, s: string)
    ensures s in NarratorSearchTickers(active) <==>
      exists i :: 0 <= i < |active| && active[i] != Unknown && SearchSymbol(active[i]) == s
  {
    if active != [] {
      NarratorSearchMember(active[1..], s);
      assert forall i :: 1 <= i < |active| ==> active[i] == active[1..][i - 1];
      if s in NarratorSearchTickers(active[1..]) {
        var j :| 0 <= j < |active[1..]| && active[1..][j] != Unknown && SearchSymbol(active[1..][j]) == s;
        assert active[j + 1] == active[1..][j];
      }
    }
  }

  /** The symbols checked for a portfolio are never empty and never UNKNOWN. */
  lemma NarratorSearchSearchable(holdings: seq<Holding>, active: seq<string>)
    requires forall t :: t in active <==> t in ActiveTickerSet(holdings)
    ensures forall s :: s in NarratorSearchTickers(active) ==> Searchable(s)
  {
    forall s | s in NarratorSearchTickers(active) ensures Searchable(s) {
      NarratorSearchMember(active, s);
      var i :| 0 <= i < |active| && active[i] != Unknown && SearchSymbol(active[i]) == s;
      assert active[i] in ActiveTickerSet(holdings);
      SearchSymbolSearchable(active[i]);
    }
  }

  // ---------------------------------------------------------------------------
  // Steps 2-3: last two closes, the daily move and the trigger
  // ---------------------------------------------------------------------------

  /** `history.dropna()`: None stands for a NaN close. */
  function DropNaN(closes: seq<Option<real>>): (h: seq<real>)
    ensures |h| <= |closes|
    ensures forall x :: x in h <==> Some(x) in closes
  {
    if closes == [] then []
    else
      var rest := DropNaN(closes[..|closes| - 1]);
      assert forall c :: c in closes <==> c in closes[..|closes| - 1] || c == closes[|closes| - 1];
      match closes[|closes| - 1]
      case None => rest
      case Some(x) => rest + [x]
  }

  lemma {:induction false} DropNaNAppend(a: seq<Option<real>>, b: seq<Option<real>>)
    ensures DropNaN(a + b) == DropNaN(a) + DropNaN(b)
  {
    if b == [] {
      assert a + b == a;
    } else {
      var b0 := b[..|b| - 1];
      assert (a + b)[..|a + b| - 1] == a + b0;
      DropNaNAppend(a, b0);
    }
  }

  lemma DropNaNSingle(x: real)
    ensures DropNaN([Some(x)]) == [x]
  {
    assert [Some(x)][..0] == [];
  }

  lemma {:induction false} DropNaNOfGap(gap: seq<Option<real>>)
    requires forall k :: 0 <= k < |gap| ==> gap[k].None?
    ensures DropNaN(gap) == []
  {
    if gap != [] {
      DropNaNOfGap(gap[..|gap| - 1]);
    }
  }

  /** The closes of the day before and of today, and `(current - prev) / prev`. */
  datatype Move = Move(prevClose: real, currentClose: real, pctChange: real)

  /** None when the ticker is skipped: fewer than two non-NaN closes, or a zero
      previous close (the division fails). */
  function DailyMove(closes: seq<Option<real>>): (r: Option<Move>)
    ensures r.Some? ==> Some(r.value.prevClose) in closes && Some(r.value.currentClose) in closes
    ensures r.Some? ==> r.value.prevClose != 0.0
  {
    var h := DropNaN(closes);
    if |h| < 2 || h[|h| - 2] == 0.0 then None
    else
      assert h[|h| - 2] in h && h[|h| - 1] in h;
      Some(Move(h[|h| - 2], h[|h| - 1], (h[|h| - 1] - h[|h| - 2]) / h[|h| - 2]))
  }

  /** prev and current are the last two non-NaN closes, whatever NaNs sit between or after them. */
  lemma LastTwoCloses(earlier: seq<Option<real>>, p: real, gap: seq<Option<real>>, q: real, tail: seq<Option<real>>)
    requires p != 0.0
    requires forall k :: 0 <= k < |gap| ==> gap[k].None?
    requires forall k :: 0 <= k < |tail| ==> tail[k].None?
    ensures DailyMove(earlier + [Some(p)] + gap + [Some(q)] + tail) == Some(Move(p, q, (q - p) / p))
  {
    var a := earlier + [Some(p)];
    var b := a + gap;
    var c := b + [Some(q)];
    DropNaNAppend(c, tail);
    DropNaNOfGap(tail);
    assert DropNaN(c + tail) == DropNaN(c);
    DropNaNAppend(b, [Some(q)]);
    DropNaNSingle(q);
    DropNaNAppend(a, gap);
    DropNaNOfGap(gap);
    DropNaNAppend(earlier, [Some(p)]);
    DropNaNSingle(p);
    var h := DropNaN(c + tail);
    assert h == DropNaN(earlier) + [p] + [q];
    assert h[|h| - 2] == p && h[|h| - 1] == q;
  }

  /** With at most one non-NaN close there is no move to report. */
  lemma {:induction false} FewClosesSkipped(closes: seq<Option<real>>)
    requires forall i, j :: 0 <= i < j < |closes| ==> closes[i].None? || closes[j].None?
    ensures |DropNaN(closes)| <= 1
    ensures DailyMove(closes) == None
  {
    if closes != [] {
      var c0 := closes[..|closes| - 1];
      assert forall i, j :: 0 <= i < j < |c0| ==> c0[i] == closes[i] && c0[j] == closes[j];
      FewClosesSkipped(c0);
      if closes[|closes| - 1].Some? {
        assert forall k :: 0 <= k < |c0| ==> c0[k] == closes[k];
        DropNaNOfGap(c0);
      }
    }
  }

  /** `abs(pct_change) >= VOLATILITY_THRESHOLD` */
  predicate Triggers(pctChange: real, threshold: real) {
    Abs(pctChange) >= threshold
  }

  /** With the configured threshold of 0.00 every move triggers. */
  lemma EveryMoveTriggers(pctChange: real)
    ensures Triggers(pctChange, VolatilityThreshold)
  {
  }

  /** The direction word of the explanation prompt. */
  datatype Direction = Up | Down

  /** `"UP" if pct_change > 0 else "DOWN"` */
  function DirectionOf(pctChange: real): Direction {
    if pctChange > 0.0 then Up else Down
  }

  /** Over a positive previous close the move is UP iff today's close is higher;
      an unchanged close reads DOWN; the magnitude is the relative change. */
  lemma DirectionOfMove(closes: seq<Option<real>>)
    requires DailyMove(closes).Some? && DailyMove(closes).value.prevClose > 0.0
    ensures var m := DailyMove(closes).value;
      && (DirectionOf(m.pctChange) == Up <==> m.currentClose > m.prevClose)
      && (m.currentClose == m.prevClose ==> DirectionOf(m.pctChange) == Down)
      && Abs(m.pctChange) * m.prevClose == Abs(m.currentClose - m.prevClose)
  {
    var m := DailyMove(closes).value;
    var d := m.currentClose - m.prevClose;
    assert m.pctChange == d / m.prevClose;
    assert m.pctChange * m.prevClose == d;
    if d > 0.0 {
      assert m.pctChange > 0.0;
    } else if d < 0.0 {
      assert m.pctChange < 0.0;
    } else {
      assert m.pctChange == 0.0;
    }
  }

  // ---------------------------------------------------------------------------
  // get_market_news: the top three headlines
  // ---------------------------------------------------------------------------

  datatype NewsItem = NewsItem(title: string, publisher: string)

  /** What the news service gives for a ticker: its items, or the error it raised. */
  datatype NewsResult = NewsItems(items: seq<NewsItem>) | NewsError(message: string)

  /** `f"- {item['title']} ({item['publisher']})"` */
  function HeadlineLine(item: NewsItem): string {
    "- " + item.title + " (" + item.publisher + ")"
  }

  function FormatHeadlines(items: seq<NewsItem>): seq<string> {
    if items == [] then [] else FormatHeadlines(items[..|items| - 1]) + [HeadlineLine(items[|items| - 1])]
  }

  /** `"\n".join(lines)` */
  function JoinLines(lines: seq<string>): string {
    if |lines| == 0 then ""
    else if |lines| == 1 then lines[0]
    else JoinLines(lines[..|lines| - 1]) + "\n" + lines[|lines| - 1]
  }

  function TopThree(items: seq<NewsItem>): seq<NewsItem> {
    if |items| <= 3 then items else items[..3]
  }

  /** What `get_market_news` returns. */
  function Headlines(news: NewsResult): string {
    match news
    case NewsError(message) => "Error fetching news: " + message
    case NewsItems(items) => JoinLines(FormatHeadlines(TopThree(items)))
  }

  method GetMarketNews(news: NewsResult) returns (headlines: string)
    ensures headlines == Headlines(news)
  {
    match news
    case NewsError(message) =>
      headlines := "Error fetching news: " + message;
    case NewsItems(items) =>
      var lines: seq<string> := [];
      var top := TopThree(items);
      for i := 0 to |top|
        invariant lines == FormatHeadlines(top[..i])
      {
        lines := lines + [HeadlineLine(top[i])];
        assert top[..i + 1][..i] == top[..i];
      }
      assert top[..|top|] == top;
      headlines := JoinLines(lines);
  }

  lemma {:induction false} FormatHeadlinesAt(items: seq<NewsItem>)
    ensures |FormatHeadlines(items)| == |items|
    ensures forall i :: 0 <= i < |items| ==> FormatHeadlines(items)[i] == HeadlineLine(items[i])
  {
    if items != [] {
      var i0 := items[..|items| - 1];
      FormatHeadlinesAt(i0);
      assert forall i :: 0 <= i < |i0| ==> i0[i] == items[i];
    }
  }

  /** At most three lines, the first items in order, each "- title (publisher)". */
  lemma HeadlinesAreTopThree(items: seq<NewsItem>)
    ensures |FormatHeadlines(TopThree(items))| == if |items| < 3 then |items| else 3
    ensures forall i :: 0 <= i < |FormatHeadlines(TopThree(items))| ==>
      FormatHeadlines(TopThree(items))[i] == HeadlineLine(items[i])
  {
    FormatHeadlinesAt(TopThree(items));
  }

  lemma JoinLinesEmpty(lines: seq<string>)
    requires forall i :: 0 <= i < |lines| ==> lines[i] != ""
    ensures JoinLines(lines) == "" <==> lines == []
  {
    if |lines| >= 2 {
      assert |JoinLines(lines)| >= 1;
    }
  }

  /** The headlines are empty exactly when the service returned no items. */
  lemma HeadlinesEmptyIff(news: NewsResult)
    ensures Headlines(news) == "" <==> news.NewsItems? && news.items == []
  {
    if news.NewsItems? {
      var lines := FormatHeadlines(TopThree(news.items));
      FormatHeadlinesAt(TopThree(news.items));
      assert forall i :: 0 <= i < |lines| ==> lines[i][0] == '-';
      JoinLinesEmpty(lines);
      assert TopThree(news.items) == [] <==> news.items == [];
    } else {
      assert Headlines(news)[0] == 'E';
    }
  }

  // ---------------------------------------------------------------------------
  // Step 3-4: one ticker, and the whole loop
  // ---------------------------------------------------------------------------

  /** The 5-day closes the price service returned, per symbol. */
  type CloseHistory = map<string, seq<Option<real>>>

  /** What the explanation prompt carries: the asset, the direction, the
      magnitude in percent and the headlines. */
  datatype ExplanationRequest = ExplanationRequest(ticker: string, direction: Direction, magnitudePct: real, headlines: string)

  datatype TickerOutcome =
    | Skipped                                // no data, too few closes, or a failed division
    | Stable(move: Move)                     // below the threshold
    | NoNews(move: Move)                     // triggered, but no headlines
    | Explained(move: Move, explanation: string)

  /** One iteration of the per-ticker loop. `news` is the news service and
      `explain` the explanation service; both are opaque. */
  function NarrateTicker(ticker: string, history: CloseHistory, threshold: real,
                         news: string -> NewsResult, explain: ExplanationRequest -> string): TickerOutcome
  {
    if ticker !in history then Skipped
    else match DailyMove(history[ticker])
      case None => Skipped
      case Some(m) =>
        if !Triggers(m.pctChange, threshold) then Stable(m)
        else
          var headlines := Headlines(news(ticker));
          if headlines == "" then NoNews(m)
          else Explained(m, explain(ExplanationRequest(ticker, DirectionOf(m.pctChange), Abs(m.pctChange) * 100.0, headlines)))
  }

  datatype TickerReport = TickerReport(ticker: string, outcome: TickerOutcome)

  function Narrate(search: seq<string>, history: CloseHistory, threshold: real,
                   news: string -> NewsResult, explain: ExplanationRequest -> string): seq<TickerReport>
  {
    if search == [] then []
    else
      var t := search[|search| - 1];
      Narrate(search[..|search| - 1], history, threshold, news, explain)
      + [TickerReport(t, NarrateTicker(t, history, threshold, news, explain))]
  }

  /** `log_action("NARRATOR", "EXPLAINED_MOVE", f"{ticker}: {explanation}")` */
  function MoveEntry(ticker: string, explanation: string): LogEntry {
    LogEntry("NARRATOR", "EXPLAINED_MOVE", ticker + ": " + explanation)
  }

  /** The entries written: one per explained move, none for the others. */
  function MoveLog(reports: seq<TickerReport>): seq<LogEntry> {
    if reports == [] then []
    else
      var r := reports[|reports| - 1];
      MoveLog(reports[..|reports| - 1])
      + (if r.outcome.Explained? then [MoveEntry(r.ticker, r.outcome.explanation)] else [])
  }

  /** Every ticker gets its own report, decided by its own data only: a
      failure on one ticker skips that ticker and no other. */
  lemma {:induction false} NarrateEachTicker(search: seq<string>, history: CloseHistory, threshold: real,
                                            news: string -> NewsResult, explain: ExplanationRequest -> string)
    ensures |Narrate(search, history, threshold, news, explain)| == |search|
    ensures forall i :: 0 <= i < |search| ==>
      Narrate(search, history, threshold, news, explain)[i] == TickerReport(search[i], NarrateTicker(search[i], history, threshold, news, explain))
  {
    if search != [] {
      var s0 := search[..|search| - 1];
      NarrateEachTicker(s0, history, threshold, news, explain);
      assert forall i :: 0 <= i < |s0| ==> s0[i] == search[i];
    }
  }

  /** An entry is written iff some ticker's move was explained, and it carries that explanation. */
  lemma {:induction false} MoveLogMember(reports: seq<TickerReport>, e: LogEntry)
    ensures e in MoveLog(reports) <==>
      exists i :: 0 <= i < |reports| && reports[i].outcome.Explained?
        && e == MoveEntry(reports[i].ticker, reports[i].outcome.explanation)
  {
    if reports != [] {
      var r0 := reports[..|reports| - 1];
      MoveLogMember(r0, e);
      assert forall i :: 0 <= i < |r0| ==> r0[i] == reports[i];
    }
  }

  /** An explained move was triggered, had headlines, and the explanation was
      asked with the direction rule and the magnitude in percent. */
  lemma ExplainedMove(ticker: string, history: CloseHistory, threshold: real,
                      news: string -> NewsResult, explain: ExplanationRequest -> string)
    requires NarrateTicker(ticker, history, threshold, news, explain).Explained?
    ensures var o := NarrateTicker(ticker, history, threshold, news, explain);
      && ticker in history && DailyMove(history[ticker]) == Some(o.move)
      && Triggers(o.move.pctChange, threshold)
      && news(ticker) != NewsItems([])
      && o.explanation == explain(ExplanationRequest(ticker, DirectionOf(o.move.pctChange),
                                                     Abs(o.move.pctChange) * 100.0, Headlines(news(ticker))))
  {
    HeadlinesEmptyIff(news(ticker));
  }

  /** Holding both `BTC` and the raw symbol `BTC-USD` checks `BTC-USD` twice:
      the same report is produced twice, and an explained move is logged twice. */
  lemma AliasCheckedTwice(active: seq<string>, history: CloseHistory, threshold: real,
                          news: string -> NewsResult, explain: ExplanationRequest -> string)
    requires active == ["BTC", "BTC-USD"] || active == ["BTC-USD", "BTC"]
    ensures NarratorSearchTickers(active) == ["BTC-USD", "BTC-USD"]
    ensures var o := NarrateTicker("BTC-USD", history, threshold, news, explain);
      var r := TickerReport("BTC-USD", o);
      && Narrate(NarratorSearchTickers(active), history, threshold, news, explain) == [r, r]
      && MoveLog([r, r]) == (if o.Explained? then [MoveEntry("BTC-USD", o.explanation), MoveEntry("BTC-USD", o.explanation)] else [])
  {
    assert active[1..][1..] == [];
    assert NarratorSearchTickers(active) == ["BTC-USD", "BTC-USD"];
    NarrateTwice("BTC-USD", history, threshold, news, explain);
    MoveLogTwice(TickerReport("BTC-USD", NarrateTicker("BTC-USD", history, threshold, news, explain)));
  }

  /** A symbol listed twice is narrated twice, identically. */
  lemma NarrateTwice(t: string, history: CloseHistory, threshold: real,
                     news: string -> NewsResult, explain: ExplanationRequest -> string)
    ensures var r := TickerReport(t, NarrateTicker(t, history, threshold, news, explain));
      Narrate([t, t], history, threshold, news, explain) == [r, r]
  {
    var r := TickerReport(t, NarrateTicker(t, history, threshold, news, explain));
    var search := [t, t];
    assert search[..|search| - 1] == [t] && [t][..0] == [];
    assert Narrate([t], history, threshold, news, explain) == [] + [r];
    assert Narrate(search, history, threshold, news, explain) == [r] + [r];
  }

  /** A report listed twice is logged twice when it is an explained move. */
  lemma MoveLogTwice(r: TickerReport)
    ensures MoveLog([r, r]) == (if r.outcome.Explained? then [MoveEntry(r.ticker, r.outcome.explanation), MoveEntry(r.ticker, r.outcome.explanation)] else [])
  {
    var rs := [r, r];
    assert rs[..|rs| - 1] == [r] && [r][..0] == [];
    var tail := if r.outcome.Explained? then [MoveEntry(r.ticker, r.outcome.explanation)] else [];
    assert MoveLog([r]) == [] + tail;
    assert MoveLog(rs) == tail + tail;
  }

  /** Conversely, a triggered move with news is explained from the request
      built by the direction rule, and logs exactly its one entry. */
  lemma TriggeredWithNewsIsExplained(ticker: string, history: CloseHistory, threshold: real,
                                     news: string -> NewsResult, explain: ExplanationRequest -> string)
    requires ticker in history && DailyMove(history[ticker]).Some?
    requires Triggers(DailyMove(history[ticker]).value.pctChange, threshold)
    requires news(ticker) != NewsItems([])
    ensures var m := DailyMove(history[ticker]).value;
      var explanation := explain(ExplanationRequest(ticker, DirectionOf(m.pctChange), Abs(m.pctChange) * 100.0, Headlines(news(ticker))));
      && NarrateTicker(ticker, history, threshold, news, explain) == Explained(m, explanation)
      && MoveLog([TickerReport(ticker, NarrateTicker(ticker, history, threshold, news, explain))]) == [MoveEntry(ticker, explanation)]
  {
    HeadlinesEmptyIff(news(ticker));
    var r := [TickerReport(ticker, NarrateTicker(ticker, history, threshold, news, explain))];
    assert r[..0] == [];
  }

  /** A triggered ticker with no news items gets no explanation and no log entry. */
  lemma NoNewsNoEntry(ticker: string, history: CloseHistory, threshold: real,
                      news: string -> NewsResult, explain: ExplanationRequest -> string)
    requires news(ticker) == NewsItems([])
    ensures !NarrateTicker(ticker, history, threshold, news, explain).Explained?
    ensures MoveLog([TickerReport(ticker, NarrateTicker(ticker, history, threshold, news, explain))]) == []
  {
    HeadlinesEmptyIff(news(ticker));
  }

  /** With the configured threshold no evaluated ticker is ever "stable". */
  lemma {:induction false} NothingStableAtZeroThreshold(search: seq<string>, history: CloseHistory,
                                                       news: string -> NewsResult, explain: ExplanationRequest -> string)
    ensures forall r :: r in Narrate(search, history, VolatilityThreshold, news, explain) ==> !r.outcome.Stable?
  {
    if search != [] {
      NothingStableAtZeroThreshold(search[..|search| - 1], history, news, explain);
    }
  }

  // ---------------------------------------------------------------------------
  // The whole run
  // ---------------------------------------------------------------------------

  datatype NarratorStatus = DataFetchError | Briefed

  /** The ticker order the run chose, the symbols it checked and what happened to each. */
  datatype NarratorRun = NarratorRun(status: NarratorStatus, active: seq<string>, searchTickers: seq<string>, reports: seq<TickerReport>)

  /** `run_narrator` once the order of the active tickers is fixed. `fetch` is
      the price service: None when it raises. */
  function NarratorRunFor(active: seq<string>, fetch: seq<string> -> Option<CloseHistory>, threshold: real,
                          news: string -> NewsResult, explain: ExplanationRequest -> string): NarratorRun
  {
    var search := NarratorSearchTickers(active);
    match fetch(search)
    case None => NarratorRun(DataFetchError, active, search, [])
    case Some(history) => NarratorRun(Briefed, active, search, Narrate(search, history, threshold, news, explain))
  }

  method RunNarrator(holdings: seq<Holding>, fetch: seq<string> -> Option<CloseHistory>,
                     news: string -> NewsResult, explain: ExplanationRequest -> string, vault: AuditLog)
    returns (run: NarratorRun)
    modifies vault
    ensures Distinct(run.active)
    ensures forall t :: t in run.active <==> t in ActiveTickerSet(holdings)
    ensures run == NarratorRunFor(run.active, fetch, VolatilityThreshold, news, explain)
    ensures vault.entries == old(vault.entries) + MoveLog(run.reports)
  {
    var active := ListActiveTickers(holdings);
    var searchTickers := NarratorSearchTickers(active);
    var payload := fetch(searchTickers);
    if payload.None? {
      return NarratorRun(DataFetchError, active, searchTickers, []);
    }
    var history := payload.value;
    var reports: seq<TickerReport> := [];
    for i := 0 to |searchTickers|
      invariant reports == Narrate(searchTickers[..i], history, VolatilityThreshold, news, explain)
      invariant vault.entries == old(vault.entries) + MoveLog(reports)
    {
      var ticker := searchTickers[i];
      assert searchTickers[..i + 1][..i] == searchTickers[..i];
      var outcome := AnalyzeTicker(ticker, history, news, explain, vault);
      assert (reports + [TickerReport(ticker, outcome)])[..|reports|] == reports;
      reports := reports + [TickerReport(ticker, outcome)];
    }
    assert searchTickers[..|searchTickers|] == searchTickers;
    run := NarratorRun(Briefed, active, searchTickers, reports);
  }

  /** The body of the per-ticker loop, with its skips and its one log write. */
  method AnalyzeTicker(ticker: string, history: CloseHistory,
                       news: string -> NewsResult, explain: ExplanationRequest -> string, vault: AuditLog)
    returns (outcome: TickerOutcome)
    modifies vault
    ensures outcome == NarrateTicker(ticker, history, VolatilityThreshold, news, explain)
    ensures vault.entries == old(vault.entries) + MoveLog([TickerReport(ticker, outcome)])
  {
    if ticker !in history {
      return Skipped;
    }
    var move := DailyMove(history[ticker]);
    if move.None? {
      return Skipped;
    }
    var m := move.value;
    if !(Abs(m.pctChange) >= VolatilityThreshold) {
      return Stable(m);
    }
    var headlines := GetMarketNews(news(ticker));
    if headlines == "" {
      return NoNews(m);
    }
    var explanation := explain(ExplanationRequest(ticker, DirectionOf(m.pctChange), Abs(m.pctChange) * 100.0, headlines));
    vault.LogAction("NARRATOR", "EXPLAINED_MOVE", ticker + ": " + explanation);
    outcome := Explained(m, explanation);
  }

  /** When the price download fails nothing is analysed and nothing is logged. */
  lemma FetchErrorNoWork(active: seq<string>, fetch: seq<string> -> Option<CloseHistory>, threshold: real,
                         news: string -> NewsResult, explain: ExplanationRequest -> string)
    requires fetch(NarratorSearchTickers(active)).None?
    ensures NarratorRunFor(active, fetch, threshold, news, explain).status == DataFetchError
    ensures NarratorRunFor(active, fetch, threshold, news, explain).reports == []
    ensures MoveLog(NarratorRunFor(active, fetch, threshold, news, explain).reports) == []
  {
  }
}

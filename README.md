# Fina-os Tax-Loss Scout and Volatility Narrator, in Dafny

This project models two decision routines of the Fina-os personal-finance
assistant ("S.H.E.I.L.A.").

**The Tax-Loss Scout** (`run_tax_scout`) reads the stored holding rows. It
groups them by raw ticker, summing quantity and cost basis. It maps crypto
tickers to price-service symbols (`BTC` to `BTC-USD`) and prices every
position from one batch download. It computes gain/loss in dollars and as a
fraction of basis, then applies a two-threshold decision matrix: *harvest*,
*down but holding*, or *healthy*. For every harvest opportunity it asks the
proxy adviser for a replacement asset once and writes one `HARVEST_ALERT`
audit entry.

**The Alpha Narrator** (`run_narrator`, archived) picks the distinct held
tickers and takes each one's last two non-NaN daily closes. A move at or
above the volatility threshold (0.00, so every move) triggers a fetch of the
top three headlines. When there are headlines, it asks for an explanation and
writes one `EXPLAINED_MOVE` audit entry.

Modules:

- `Tickers` (tickers.dfy): the holding row, `TICKER_MAP` and its reverse
  map, and the "searchable ticker" filter.
- `Vault` (vault.dfy): `log_action` as an append-only `AuditLog` class.
- `TaxScout` (tax_scout.dfy): grouping, search tickers, pricing, the
  decision matrix, the report loop and the whole run.
- `Narrator` (narrator.dfy): ticker selection, the daily move, the trigger,
  the direction rule, headline formatting and the whole run.

Each loop of the source is a method proved against a specification function:
`GroupHoldings` against `Grouped`/`FirstOccurrence`, `ScanPortfolio` against
`Scan`/`Opportunities`, `Report` against `HarvestAlerts`, `GetMarketNews`
against `Headlines`, and `RunNarrator` against `Narrate`/`MoveLog`. The lemmas
state what the source promises about those functions.

The model follows the code as written:

- The stored `cost_basis` is added up as a **total** basis. It is never
  multiplied by the quantity.
- Tickers are not trimmed, upper-cased, length-checked or digit-checked. Only
  the empty ticker and `"UNKNOWN"` are dropped.
- The dollar floor is `MIN_HARVEST_AMOUNT / 10` (= 100) and the comparison is
  strict, so a loss of exactly $100 is not harvested.
- A basis of zero or less gives a percentage of 0, not "undefined". Such a
  position is then "healthy".
- A position with a missing or NaN price is skipped silently. It gets no row
  and no status.
- Grouped tickers are reverse-mapped before the lookup. A raw `BTC-USD` row's
  own quantity and basis are therefore never evaluated: alone, it is skipped
  (`MappedSymbolRowSkipped`). When `BTC` is also held, the keys are `BTC` and
  `BTC-USD`, both are searched as `BTC-USD`, and both map back to `BTC`. BTC's
  position is then evaluated twice, and a harvest gives two identical
  opportunities, two adviser calls and two `HARVEST_ALERT` entries
  (`AliasRowDuplicatesHeldTicker`).
- The narrator has the same duplicate. With active tickers `BTC` and `BTC-USD`
  it checks `BTC-USD` twice, and an explained move is logged twice
  (`AliasCheckedTwice`).

External services are parameters:

- the price download (`seq<string> -> Option<PriceFrame>` or
  `Option<CloseHistory>`, where None means the call raised);
- the proxy adviser (`string -> string`);
- the news service (`string -> NewsResult`);
- the explanation service (`ExplanationRequest -> string`).

Money and prices are `real`. A NaN price or close is `None`.

## Model

| member | source | states |
|---|---|---|
| `TaxScout.DefaultFloorIsOneHundred` | spokes/tax_scout.py:8-9 | The default loss threshold is -0.05, and the dollar floor actually compared against (`MIN_HARVEST_AMOUNT / 10`) is 100. |
| `TaxScout.HarvestFloor` | spokes/tax_scout.py:119 | The dollar floor is `MIN_HARVEST_AMOUNT / 10`. Its value under the configured constants is stated by `DefaultFloorIsOneHundred`. |
| `TaxScout.FirstOccurrence` | spokes/tax_scout.py:28-51 | The grouped keys are never more than the rows. |
| `TaxScout.FirstOccurrenceKeys` | spokes/tax_scout.py:28-51 | The grouped keys are duplicate-free, and a ticker is a key iff some row carries it. |
| `TaxScout.GroupedKeys` | spokes/tax_scout.py:32-40 | The grouped portfolio has an entry for a ticker iff that ticker is among the keys. |
| `TaxScout.GroupedSums` | spokes/tax_scout.py:32-40 | Each portfolio entry holds the sum of that ticker's quantities and the sum of its cost_basis values over all rows. |
| `TaxScout.Grouped` | spokes/tax_scout.py:28-40 | The grouped portfolio, built row by row as the loop builds it. `GroupedKeys` and `GroupedSums` state its keys and its per-ticker totals. |
| `TaxScout.GroupHoldings` | spokes/tax_scout.py:28-40 | The grouping loop yields exactly the keys in first-occurrence order and exactly the grouped portfolio. |
| `TaxScout.AddRow` | spokes/tax_scout.py:36-40 | One row creates a zero entry and a new key only for an unseen ticker, then adds its quantity and basis to that ticker's entry; no other entry changes. |
| `TaxScout.SumsAppend` | spokes/tax_scout.py:36-40 | The quantity and basis sums over concatenated rows are the sums of the parts. |
| `TaxScout.SumsSwap` | spokes/tax_scout.py:27-40 | The grouped totals do not depend on which account's rows come first. |
| `TaxScout.TotalBasisConvention` | spokes/tax_scout.py:32-40 | Lots (1 BTC, basis 30000) and (0.5 BTC, basis 14000) group to 1.5 BTC with basis 44000: bases are added, not multiplied by quantity. |
| `Tickers.SearchSymbol` | spokes/tax_scout.py:45-53 | `TICKER_MAP.get(t, t)` changes a ticker iff it is a crypto ticker, and then appends `-USD`. |
| `Tickers.SearchSymbolSearchable` | spokes/tax_scout.py:53 | The mapped symbol of a searchable ticker is itself non-empty and not UNKNOWN. |
| `Tickers.Searchable` | spokes/tax_scout.py:53 | `t and t != "UNKNOWN"`: the filter on price lookups. `SearchTickersMember` and `SearchSymbolSearchable` state its use. |
| `TaxScout.SearchTickers` | spokes/tax_scout.py:51-53 | There are no more search tickers than keys, and none is empty or UNKNOWN. |
| `TaxScout.SearchTickersMember` | spokes/tax_scout.py:51-53 | A symbol is searched iff some non-empty, non-UNKNOWN key maps to it. |
| `TaxScout.SearchTickersAppend` | spokes/tax_scout.py:51-53 | The search tickers keep the order of the keys. |
| `TaxScout.SearchTickersCount` | spokes/tax_scout.py:51-53 | Over duplicate-free keys there is exactly one search ticker per key, minus one for an empty key and one for UNKNOWN. |
| `TaxScout.SearchTickersNone` | spokes/tax_scout.py:53 | Keys that are all empty or UNKNOWN give no search ticker. |
| `Tickers.OriginalTicker` | spokes/tax_scout.py:84 | `reverse_map.get(s, s)` gives a crypto ticker whose mapped symbol is s when s is a mapped symbol, and s itself otherwise. |
| `Tickers.ReverseMapInverts` | spokes/tax_scout.py:45-56 | For BTC, ETH and LTC the reverse map takes the mapped symbol back to the ticker. |
| `Tickers.ReverseMapOnlyInverts` | spokes/tax_scout.py:56 | Every reverse-map entry undoes a ticker-map entry: the reverse map holds nothing else. |
| `Tickers.PlainTickerRoundTrip` | spokes/tax_scout.py:53-84 | Any other ticker that is not itself a mapped symbol is looked up under its own name. |
| `Tickers.MappedSymbolReadsAsAlias` | spokes/tax_scout.py:84-86 | A raw `BTC-USD` ticker is searched as `BTC-USD` and reverse-mapped to `BTC`. |
| `TaxScout.LivePrice` | spokes/tax_scout.py:93-105 | A ticker's price is its entry in the downloaded frame, absent when missing or NaN. `MissingPriceSkipped` states that such a ticker is skipped. |
| `TaxScout.PctGainLoss` | spokes/tax_scout.py:113-114 | `gain / basis` when the basis is positive, else 0. `PctGainLossMeaning` states its meaning. |
| `TaxScout.Evaluate` | spokes/tax_scout.py:110-129 | Value = qty * price, gain = value - basis, pct and decision of one position. `DecisionMatrix` states its decision rule. |
| `TaxScout.Decide` | spokes/tax_scout.py:116-129 | The decision matrix. `DecisionMatrix` states each of its three outcomes as an iff. |
| `TaxScout.PctGainLossMeaning` | spokes/tax_scout.py:113-114 | With a positive basis the percentage times the basis is the gain and has the gain's sign. With a basis of zero or less it is 0. |
| `TaxScout.EvaluatePosition` | spokes/tax_scout.py:110-129 | The arithmetic and the decision matrix for one priced position agree with `Evaluate`. |
| `TaxScout.DecisionMatrix` | spokes/tax_scout.py:110-129 | gain = qty*price - basis. The position is harvest iff pct <= threshold and gain < -floor, down-but-holding iff pct <= threshold and gain >= -floor, and healthy iff pct > threshold. |
| `TaxScout.NonPositiveBasisIsHealthy` | spokes/tax_scout.py:114-117 | With a negative threshold, a zero or negative basis is always healthy, so never a candidate. |
| `TaxScout.DownMeansLoss` | spokes/tax_scout.py:113-127 | With a negative threshold, harvest and down-but-holding positions have a negative gain. |
| `TaxScout.BoundaryLossIsHolding` | spokes/tax_scout.py:117-127 | Exactly -5% with a loss of exactly $100 is down-but-holding, not harvest. |
| `TaxScout.TwentyPercentLossIsHarvest` | spokes/tax_scout.py:110-124 | Qty 10, total basis 1000, price 80 gives value 800, gain -200, pct -0.2: harvest. |
| `TaxScout.Assess` | spokes/tax_scout.py:82-108 | A ticker is evaluated only when its reverse-mapped name is held and it has a price, and then under the reverse-mapped name. |
| `TaxScout.Scan` | spokes/tax_scout.py:82-129 | The assessments of the search tickers, in order. `ScanAppend`, `MissingPriceSkipped` and `HarvestFound` state its properties. |
| `TaxScout.Opportunities` | spokes/tax_scout.py:117-124 | The harvest decisions among the assessments, in order. `OpportunityMember`, `CandidatesMeetThresholds` and `HarvestFound` state its properties. |
| `TaxScout.ScanPortfolio` | spokes/tax_scout.py:78-129 | The per-ticker loop produces `Scan` of the search tickers, and the opportunities are the harvest decisions among them, in order. |
| `TaxScout.ScanAppend` | spokes/tax_scout.py:82-129 | Each search ticker is evaluated independently and in order. |
| `TaxScout.MissingPriceSkipped` | spokes/tax_scout.py:93-108 | A missing or NaN price produces no output, and the tickers around it are evaluated exactly as without it. |
| `TaxScout.OpportunitiesAppend` | spokes/tax_scout.py:120-124 | Opportunities are appended in evaluation order. |
| `TaxScout.OpportunityMember` | spokes/tax_scout.py:117-124 | An opportunity is recorded iff an evaluated position was classified harvest. It carries that position's ticker, gain and pct*100. |
| `TaxScout.CandidatesMeetThresholds` | spokes/tax_scout.py:117-124 | Every candidate has loss_amount < -floor and pct_loss <= threshold*100. |
| `TaxScout.HarvestFound` | spokes/tax_scout.py:82-124 | Conversely, a held, priced search ticker whose evaluation has pct <= threshold and gain < -floor has its (ticker, gain, pct*100) opportunity in the list. |
| `TaxScout.Report` | spokes/tax_scout.py:145-157 | The report loop calls the adviser once per opportunity, records `abs(loss_amount)`, and appends exactly the `HARVEST_ALERT` entries to the log. |
| `TaxScout.AdviserCalls` | spokes/tax_scout.py:146-151 | The proxy adviser is asked once per opportunity. `ReportPerOpportunity` states that call i is for opportunity i. |
| `TaxScout.Recommendations` | spokes/tax_scout.py:146-155 | One recommendation per opportunity, with `abs(loss_amount)`. `ReportPerOpportunity` and `ReportedCandidates` state its entries. |
| `TaxScout.HarvestAlerts` | spokes/tax_scout.py:145-157 | One `HARVEST_ALERT` entry per opportunity. `ReportPerOpportunity` states entry i. |
| `TaxScout.AlertDetails` | spokes/tax_scout.py:157 | The text "Found loss in {ticker}. Suggested: {advice}". |
| `Tickers.Abs` | spokes/tax_scout.py:148 | `abs(x)` is non-negative and is x or -x. |
| `TaxScout.ReportPerOpportunity` | spokes/tax_scout.py:145-157 | Adviser call i, log entry i and recommendation i all belong to opportunity i. The entry reads "Found loss in {ticker}. Suggested: {advice}". |
| `TaxScout.ScoutRunOf` | spokes/tax_scout.py:11-161 | The whole run as a value: the status, the one download request, the assessments, the opportunities and the report. `RunTaxScout`, `NoHoldingsNoWork`, `NoSearchableTickerNoWork`, `DownloadRequest` and `RunCandidates` state its properties. |
| `TaxScout.RunTaxScout` | spokes/tax_scout.py:11-161 | The run equals `ScoutRunOf`, and the log gains exactly the harvest alerts of its opportunities. |
| `TaxScout.NoHoldingsNoWork` | spokes/tax_scout.py:21-23 | With no holdings the run stops before any download, with no opportunities and no log entries. |
| `TaxScout.NoSearchableTickerNoWork` | spokes/tax_scout.py:51-62 | When every ticker is empty or UNKNOWN the run stops before any download, with no adviser calls and no log entries. |
| `TaxScout.DownloadRequest` | spokes/tax_scout.py:60-75 | A run reaches the price service at most once. It asks for the search tickers plus SPY, and only if it gets past both early returns. |
| `TaxScout.RunOpportunitiesMeetThresholds` | spokes/tax_scout.py:64-124 | Every opportunity of a whole run met both thresholds. A failed download gives none. |
| `TaxScout.ReportedCandidates` | spokes/tax_scout.py:143-157 | For candidates below both thresholds, the report has one adviser call and one recommendation per candidate, in order, each with the loss made positive. |
| `TaxScout.RunCandidates` | spokes/tax_scout.py:117-157 | In a whole run, one adviser call per opportunity in list order, every opportunity below both thresholds, and a reported loss equal to the loss amount made positive. |
| `TaxScout.MappedSymbolRowSkipped` | spokes/tax_scout.py:82-86 | A lone raw `BTC-USD` row is never evaluated, whatever the prices, so it gives no opportunity and no adviser call. |
| `TaxScout.AliasRowDuplicatesHeldTicker` | spokes/tax_scout.py:51-157 | With rows `BTC` and `BTC-USD` and a price for `BTC-USD`, the run assesses BTC's own lot twice and never the raw row. A harvest gives two identical opportunities, two adviser calls and two `HARVEST_ALERT` entries; otherwise no opportunity. |
| `Vault.AuditLog.LogAction` | core/database.py:136-142 | `log_action` appends one (spoke, action, details) entry and changes nothing else. |
| `Narrator.ActiveTickerSet` | archive/narrator.py:79-81 | The active tickers are exactly the non-empty tickers of the holding rows. |
| `Narrator.ListActiveTickers` | archive/narrator.py:81 | `list(set(...))` lists each active ticker exactly once, in some order. |
| `Narrator.NarratorSearchTickers` | archive/narrator.py:84-86 | There are no more checked symbols than active tickers. |
| `Narrator.NarratorSearchMember` | archive/narrator.py:84-86 | A symbol is checked iff some active ticker other than UNKNOWN maps to it. |
| `Narrator.NarratorSearchSearchable` | archive/narrator.py:79-86 | No checked symbol is empty or UNKNOWN. |
| `Narrator.DropNaN` | archive/narrator.py:112 | `dropna()` keeps exactly the non-NaN closes. |
| `Narrator.DropNaNAppend` | archive/narrator.py:112 | `dropna()` keeps the closes in order. |
| `Narrator.DailyMove` | archive/narrator.py:112-118 | A reported move's two closes are non-NaN closes of the history, and the previous close is non-zero. |
| `Narrator.LastTwoCloses` | archive/narrator.py:112-118 | prev and current are the last two non-NaN closes, whatever NaNs sit between or after them, and pct = (current - prev) / prev. |
| `Narrator.FewClosesSkipped` | archive/narrator.py:112-113 | With fewer than two non-NaN closes the ticker is skipped. |
| `Narrator.Triggers` | archive/narrator.py:121 | `abs(pct_change) >= VOLATILITY_THRESHOLD`. `EveryMoveTriggers` states its outcome at the configured threshold. |
| `Narrator.EveryMoveTriggers` | archive/narrator.py:12-121 | With VOLATILITY_THRESHOLD = 0.00, `abs(pct_change) >= threshold` holds for every move. |
| `Narrator.DirectionOf` | archive/narrator.py:37 | UP iff `pct_change > 0`, else DOWN. `DirectionOfMove` ties it to the two closes. |
| `Narrator.NothingStableAtZeroThreshold` | archive/narrator.py:118-146 | With the configured threshold, no evaluated ticker is ever left "stable". |
| `Narrator.DirectionOfMove` | archive/narrator.py:37-45 | Over a positive previous close the move is UP iff the close rose, and an unchanged close reads DOWN. The magnitude is `abs(pct_change)` of the previous close. |
| `Narrator.GetMarketNews` | archive/narrator.py:15-31 | The headline loop returns `Headlines`: the joined top-three lines, or the error text. |
| `Narrator.HeadlineLine` | archive/narrator.py:27 | "- {title} ({publisher})". `FormatHeadlinesAt` states where each line comes from. |
| `Narrator.TopThree` | archive/narrator.py:26 | `news_items[:3]`. `HeadlinesAreTopThree` states its length and order. |
| `Narrator.FormatHeadlines` | archive/narrator.py:24-27 | One line per item. `FormatHeadlinesAt` states line i. |
| `Narrator.JoinLines` | archive/narrator.py:29 | `"\n".join(...)`. `JoinLinesEmpty` states when it is empty. |
| `Narrator.Headlines` | archive/narrator.py:15-31 | The joined top-three lines, or "Error fetching news: {e}". `HeadlinesAreTopThree` and `HeadlinesEmptyIff` state its properties. |
| `Narrator.FormatHeadlinesAt` | archive/narrator.py:26-27 | Line i is "- {title} ({publisher})" of item i. |
| `Narrator.HeadlinesAreTopThree` | archive/narrator.py:24-29 | There are min(3, number of items) lines, formatted from the first items in order. |
| `Narrator.JoinLinesEmpty` | archive/narrator.py:29 | Non-empty lines join to the empty string iff there are none. |
| `Narrator.HeadlinesEmptyIff` | archive/narrator.py:24-31 | The headlines are empty iff the service returned no items. An error text is never empty. |
| `Narrator.NarrateEachTicker` | archive/narrator.py:102-150 | Every checked symbol gets its own report, decided by its own data only, so a failure skips only that ticker. |
| `Narrator.NarrateTicker` | archive/narrator.py:103-150 | One ticker's outcome: skipped, stable, no news, or explained. `ExplainedMove`, `NoNewsNoEntry` and `NarrateEachTicker` state its properties. |
| `Narrator.Narrate` | archive/narrator.py:101-150 | The reports of the per-ticker loop, in order. `NarrateEachTicker` states report i. |
| `Narrator.MoveEntry` | archive/narrator.py:141 | The `EXPLAINED_MOVE` entry "{ticker}: {explanation}" of the `NARRATOR` spoke. |
| `Narrator.MoveLog` | archive/narrator.py:132-141 | The entries the loop writes. `MoveLogMember` states that an entry exists iff a move was explained. |
| `Narrator.MoveLogMember` | archive/narrator.py:132-141 | A log entry exists iff some ticker's move was explained, and it reads "{ticker}: {explanation}". |
| `Narrator.ExplainedMove` | archive/narrator.py:121-141 | An explained move was triggered and had news. The explanation was asked with the direction rule, abs(pct)*100 and the headlines. |
| `Narrator.NoNewsNoEntry` | archive/narrator.py:132-134 | A ticker with no news items gets no explanation and no log entry. |
| `Narrator.AliasCheckedTwice` | archive/narrator.py:81-141 | With active tickers `BTC` and `BTC-USD`, in either order, `BTC-USD` is checked twice, the same report is produced twice, and an explained move gives two identical `EXPLAINED_MOVE` entries. |
| `Narrator.TriggeredWithNewsIsExplained` | archive/narrator.py:121-141 | Conversely, a triggered move with news is explained from the request (ticker, direction, abs(pct)*100, headlines) and logs exactly its one entry. |
| `Narrator.AnalyzeTicker` | archive/narrator.py:103-150 | One loop iteration yields `NarrateTicker` and appends a log entry only for an explained move. |
| `Narrator.RunNarrator` | archive/narrator.py:71-153 | The run lists each active ticker once, checks their mapped symbols in that order, and logs exactly the explained moves. |
| `Narrator.NarratorRunFor` | archive/narrator.py:71-153 | The whole run as a value for a given order of the active tickers: a fetch error, or the reports. `RunNarrator`, `FetchErrorNoWork` and `NothingStableAtZeroThreshold` state its properties. |
| `Narrator.FetchErrorNoWork` | archive/narrator.py:91-99 | When the price download raises, nothing is analysed and nothing is logged. |

## Left out

- Printing and its `:.2f` formatting, the vault's open/close, the SQL query and the log timestamp are I/O. The holdings are an input sequence, and the audit log is the `AuditLog` sink.
- A NULL ticker is modelled as the empty string. Both are falsy and are filtered at the same places. The tax scout would keep them as two distinct, never-used grouping keys; the model keeps one.
- The shape handling of the downloaded price table (spokes/tax_scout.py:64-75, :95-99; archive/narrator.py:91-109) is a lookup in a symbol map. This includes the single-series case.
- `SPY` is requested but never read.
- The narrator makes two downloads (archive/narrator.py:92, :96). Its first, one-day result is never read. The single `fetch` parameter returning `None` stands for either download raising; in both cases the run returns before any analysis (:97-99).
- A NULL `quantity` or `cost_basis` is not modelled: `Holding` carries plain `real` values. The schema allows NULL (core/database.py:82-83), and sync stores the values unchecked (core/orchestrator.py:62-63). In the source, `+= qty` or `+= basis` (spokes/tax_scout.py:39-40) would then raise outside any `try`. The whole run would abort before the download, with no report and no log entry. The model has no such aborted run.
- IEEE floats are not modelled: money is exact `real`, and NaN is only "absent" (`None`).
- Narrator.DailyMove: a zero previous close is modelled as a skipped ticker. numpy would produce inf or NaN there; with threshold 0.00, inf would trigger and NaN would not.
- The order of `list(set(...))` in the narrator is arbitrary. `ListActiveTickers` picks it nondeterministically, and the rest of the run is proved for whatever order it picked.
- The proxy adviser is a function of the ticker, so the two calls of a duplicated ticker (see `AliasRowDuplicatesHeldTicker`) get the same text. The adviser's language model runs at temperature 0.2, so in the source the two texts may differ. The same holds for the narrator's explanation service.
- The proxy adviser and the explanation service (OpenAI prompt wrappers) are opaque functions. Their prompts, the wash-sale wording in the adviser prompt and their fallback texts ("Error finding proxy: …", "Analysis unavailable.") are not modelled beyond being returned verbatim.
- A news call that raises (including an item without `title` or `publisher`) is a `NewsError` whose text becomes the headlines, as in the source.
- Narrator.DirectionOfMove: relates the direction to the closes only for a positive previous close. With a negative close the sign of `pct_change` flips.
- TaxScout.RunCandidates: states "reported loss = -loss_amount" only for a non-negative `MIN_HARVEST_AMOUNT`. The configured value is 1000.
- The commented-out forced-harvest test block (spokes/tax_scout.py:131-141) is not modelled.
- The `"UNKNOWN"` placeholder ticker and the 0.0 price are produced during account sync (core/orchestrator.py:55-57), which is not part of this model. Nor are core/plaid_client.py, spokes/proxy_finder.py, spokes/architect.py, setup_server.py, nuke.py and clean_db.py, which are network, prompt, UI or file plumbing.

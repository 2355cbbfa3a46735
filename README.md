# ko-stock-assistant, modelled in Dafny

This project models the core of ko-stock-assistant, a Korean stock data and
back-testing tool. The core has five parts:

- **The daily chart update** of `kostock/update.py`. A planner picks the codes
  whose chart tables are behind and the date each one starts from. Two
  worker processes fetch daily prices (TR opt10081) and investor flows
  (TR opt10060) from the Kiwoom broker. A consumer process upserts what they
  put on a shared buffer into MariaDB. It moves a code's update date in
  `meta_update` on the code's second end marker. That is meant to say both
  series of the code have finished. A relaunched price worker that
  re-sends a code it already finished also supplies the second marker.
  A supervisor loop restarts workers that stopped with a non-zero exit
  code. A worker cut by the broker's request limit is meant to save its
  unfinished tasks to a checkpoint for the next run. As written the save
  is never reached (see "## Findings").
- **The store** of `kostock/stockdb.py`. A chart table `c_<code>` is a map from
  dates to rows with nullable columns. `meta_update` maps a table name to an
  update date and a listing date. `stock_info` maps a code to its
  description. Each INSERT … ON DUPLICATE KEY UPDATE and each SELECT is
  given its plain map meaning.
- **The Kiwoom client rules** of `qpkg/Kiwoom.py`:
  - request pacing and the 99-request budget of one client;
  - continuation paging;
  - screen numbers;
  - sign cleanup and integer conversion;
  - argument mapping;
  - the `;`/`^` list parsers;
  - conclusion-time formatting;
  - the open-order dictionary.
- **Back-test selection** in `kostock/backtester.py`, `kostock/chart_extractor.py`
  and `qpkg/Trader.py`:
  - the two test-list numbering schemes;
  - the consecutive-day institution scan;
  - the window skeleton of the chart-pattern scan;
  - the interval layout of the pattern polyline.
- **Calendar and URL helpers** in `kostock/qutils.py` and `qpkg/qutils.py`:
  the latest trading day on or before a date, the YYYYMMDD split, and the
  WICS and FnGuide URLs.

How the model represents the system:

- Dates are proleptic ordinals, with 0001-01-01 as day 1. The weekday is
  computed from the ordinal.
- The broker is a parameter. A worker's `n`-th request gets the reply
  `src(task, n)`.
- The multiprocessing buffer is a sequence of messages. `None` stands for
  the sentinel.
- Each series' checkpoint pickle is an `Option<seq<Task>>`.
- The exit codes the supervisor observes are inputs.
- Stateful objects are classes over maps and sequences:
  - the store, `StockDb.StockDB`;
  - the client, `KiwoomClient.Kiwoom`;
  - both back-testers.
- Loops are methods proved against recursive specification functions. The
  properties are then proved about those functions.

## Model

| member | source | states |
|---|---|---|
| UpdatePlan.GetUpdateDate | kostock/update.py:77-91 | The chart date is the latest trading day on or before the configured date (today when unset); the stock-list date is the latest trading day strictly before the chart date; when none exists the step back past day 1 is OverflowError |
| UpdatePlan.TwoArgumentCall | kostock/update.py:84-87 | A call with two positional arguments succeeds exactly when the function takes two parameters, and otherwise raises TypeError |
| UpdatePlan.GetUpdateDateAsWrittenRaises | kostock/qutils.py:25 | The two-argument call of `get_update_date` against the three-parameter `get_latest_trading_date` that update.py imports raises TypeError; a two-parameter function would accept it |
| UpdatePlan.CheckSinfoUpdate | kostock/update.py:93-100 | The stock list is refreshed exactly when there is no `stock_info` meta row or at least 30 days have passed since its update date; a row with a NULL date is TypeError |
| UpdatePlan.CheckManualTransfer | kostock/update.py:204-210 | `True` and `False` are returned as such and any other setting is ReferenceError |
| UpdatePlan.PutValid | kostock/update.py:227 | Assigning a dictionary key keeps the keys distinct and in insertion order, adds the key and stores the value |
| UpdatePlan.CodeOf | kostock/update.py:217 | The code is the meta table name with its two-character prefix removed |
| UpdatePlan.StartRule | kostock/update.py:220-225 | The start date is the last update when set, otherwise the later of the listing date and START_DATE; a row with neither date raises |
| UpdatePlan.ChartUpdateDictFails | kostock/update.py:212-231 | The planner raises exactly when some meta row has neither a last update nor a listing date |
| UpdatePlan.ChartUpdateDictSpec | kostock/update.py:216-231 | Every planned code comes from a row whose start is before the update date, with that row's listing, last and start dates unchanged; every such row's code is planned; the last such row of a code wins |
| UpdatePlan.LoadUpdateListSpec | kostock/update.py:407-415 | A checkpoint replaces the plan whole; otherwise there is one task per planned code, in dictionary order, no code twice, each from its start date to the update date, which is later |
| UpdatePlan.MultiprocLogin | kostock/update.py:393-405 | The login runs under the lock and the lock is released on both paths; a failed login ends the worker with exit code 1 |
| UpdatePlan.LoginLock.constructor | kostock/update.py:393-405 | A new `multiprocessing.Lock` is free |
| UpdatePlan.LoginLock.Acquire | kostock/update.py:394 | Acquiring a free lock holds it |
| UpdatePlan.LoginLock.Release | kostock/update.py:399-405 | Releasing a held lock frees it |
| UpdateWorkers.RequestOhlcTask | kostock/update.py:311-341 | One price task: a raising request skips that task, status -1 cuts it, a code with a last update has the stored close compared with the chunk's oldest close and on a mismatch the history up to the last update is requested again; a missing plan entry, empty chunk or missing table ends the process |
| UpdateWorkers.OhlcNoAdjustmentWithoutLastUpdate | kostock/update.py:323 | A code without a last update sends its first chunk as received, after one request |
| UpdateWorkers.OhlcAdjustmentResends | kostock/update.py:323-339 | On a close mismatch the first chunk is dropped and the second request runs from START_DATE to the previous last update; it finishes with the new chunk, is cut with START_DATE as the saved start, or is skipped when it raises |
| UpdateWorkers.TransmitOhlcTasks | kostock/update.py:310-352 | The price worker's loop, which changes its task list in place, yields exactly the run the specification walk gives over the task list |
| UpdateWorkers.TransmitInvestorTasks | kostock/update.py:367-391 | The investor worker's loop yields exactly the specification walk's run |
| UpdateWorkers.TransmitOhlcData | kostock/update.py:297-352 | A price worker process logs in under the lock (a failed login exits 1 with nothing sent), takes its tasks from the checkpoint or the plan and walks them |
| UpdateWorkers.TransmitInvestorData | kostock/update.py:354-391 | The same for the investor worker process |
| UpdateWorkers.WalkShape | kostock/update.py:343-352 | Every run exits 0 or 1; exit 0 saves nothing and sends only end markers; a saved list is exactly the unfinished suffix: the interrupted task, with its end moved to the chunk's oldest day (the update date for an empty chunk), then every unstarted task in order |
| UpdateWorkers.SkipStep | kostock/update.py:314-316 | A task whose request raises puts nothing on the buffer and the walk continues with the next task |
| UpdateWorkers.FinishStep | kostock/update.py:340-341 | An answered task puts exactly one message, marked as the code's end, and the walk continues |
| UpdateWorkers.CutStep | kostock/update.py:317-320 | Status -1 puts the partial chunk without the end mark, stops the walk with exit code 1 and saves the interrupted task and all later ones |
| UpdateWorkers.CrashStep | kostock/update.py:323-326 | An exception outside the try block ends the process with exit code 1 and no checkpoint file |
| UpdateWorkers.InvestorAllAnswered | kostock/update.py:367-380 | A broker that answers every request under the limit makes the investor worker send one end marker per task, in task order, carrying that task's rows, and exit 0 |
| UpdateWorkers.InvestorAsWrittenSendsNothing | kostock/update.py:369 | With the request looked up on the `kiwoom` module every task raises, so the investor worker sends nothing, saves nothing and exits 0 |
| UpdateWorkers.ModuleLookup | kostock/update.py:369 | The module-level lookup raises on every call |
| UpdateConsumer.WatermarkOnSecondMarker | kostock/update.py:288-292 | Each end marker raises only its own code's count by one; `meta_update` changes only on a code's second marker and then only in that code's update date, which becomes the update date |
| UpdateConsumer.CountedStep | kostock/update.py:276-292 | After each message the counts equal the markers taken so far and every meta row has moved exactly when its code's count reached 2 |
| UpdateConsumer.MarkersSnoc | kostock/update.py:288-290 | One more message adds one marker exactly to its own code, when it is an end marker |
| UpdateConsumer.ConsumeFrom | kostock/update.py:275-295 | Over any buffer the consumer keeps that relation for the prefix it took |
| UpdateConsumer.ConsumeCounts | kostock/update.py:274-292 | From empty counts each code's count is the number of its end markers taken, and each meta row is the start row moved to the update date exactly for codes with two or more markers |
| UpdateConsumer.ConsumeStops | kostock/update.py:275-295 | Only the sentinel ends the loop normally; the consumer takes messages in order, dies only on a message whose table is missing, and otherwise waits on an exhausted buffer |
| UpdateConsumer.MarkersPrefix | kostock/update.py:288-290 | A prefix of the buffer holds no more markers of a code than the whole buffer |
| UpdateConsumer.OneSeriesNeverMoves | kostock/update.py:291-292 | When no code has two end markers `meta_update` is left exactly as it was |
| UpdateConsumer.UpsertBarsStep | kostock/update.py:280-283 | Upserting a chunk's price rows one by one is the row-by-row fold of the price upsert |
| UpdateConsumer.UpsertFlowsStep | kostock/update.py:285-287 | The same for investor rows |
| UpdateConsumer.StoreBars | kostock/update.py:279-283 | The row loop leaves the chart tables as the price chunk's fold, or unchanged when the code's table is missing; meta and stock info are untouched |
| UpdateConsumer.StoreFlows | kostock/update.py:284-287 | The same for an investor chunk |
| UpdateConsumer.ReceiveChartData | kostock/update.py:272-295 | The consumer's loop over the buffer leaves the store in the state, and stops after the number of messages, that the specification `Consume` gives |
| UpdatePipeline.NothingLostNothingRepeated | kostock/update.py:310-352 | When no request raises or crashes, the codes marked finished, in order, followed by the codes of the saved list the next run starts from, are exactly the codes of its task list |
| UpdatePipeline.FinishedCodes | kostock/update.py:340-341 | A finished task's end marker heads the codes marked by the rest of the walk |
| UpdatePipeline.CutCodes | kostock/update.py:343-352 | A cut task marks no code and saves its own code followed by those of every later task |
| UpdatePipeline.AllFinished | kostock/update.py:310-352 | When every task finishes the worker exits 0, saves nothing and marks every code of the list once, in order |
| UpdatePipeline.MarkedNotSaved | kostock/update.py:310-352 | Over a task list of distinct codes, whatever the steps return, no code a cut run marked finished is on the list it saved, so the run that resumes from that list does not finish it again |
| UpdatePipeline.MarkedAtMostListed | kostock/update.py:310-341 | A worker marks a code no more often than the code appears in its task list |
| UpdatePipeline.SkippedWalk | kostock/update.py:314-316 | A skipped task leaves the rest of the walk as if it were not in the list |
| UpdatePipeline.DistinctOccurrences | kostock/update.py:413 | In a list with distinct codes a code occurs at most once, and exactly once when it is listed |
| UpdatePipeline.MarkersItems | kostock/update.py:288-290 | The markers of a code on the buffer are the occurrences of the code among the end-marked messages |
| UpdatePipeline.EndCodesAppend | kostock/update.py:340-341 | The codes marked by consecutive stretches of messages are concatenated |
| UpdatePipeline.OccurrencesAppend | kostock/update.py:288-290 | Occurrences of a code in joined lists add up |
| UpdatePipeline.MarkersCons | kostock/update.py:288-290 | A message in front adds one marker exactly to its own code, when it is an end marker |
| UpdatePipeline.MarkersSentinel | kostock/update.py:264 | The sentinel adds no marker |
| UpdatePipeline.CodesTail | kostock/update.py:413 | The codes of a task list are the first task's code followed by the rest's |
| UpdatePipeline.Absent | kostock/update.py:413 | A code no task carries never occurs among the task codes |
| UpdatePipeline.ConsumeNeverDies | kostock/update.py:279-287 | When every message's chart table exists the consumer never fails |
| UpdatePipeline.ReachesSentinel | kostock/update.py:264 | Messages whose tables exist, followed by the sentinel, are all taken and the consumer stops at the sentinel |
| UpdatePipeline.AsWrittenNeverMarksUpdated | kostock/update.py:369 | As written the investor worker sends nothing, so after a full price run and the sentinel no code reaches two markers and `meta_update` is unchanged |
| UpdatePipeline.CrashRelaunchMovesOnPriceOnly | kostock/update.py:248-261 | A price worker that finishes the first code and then crashes exits 1 without a saved list; relaunched on the full list it repeats the same run, and the two price end markers of the first code move its update date while the investor worker as written sends nothing |
| UpdatePipeline.AsWrittenCutRestartsFromScratch | kostock/update.py:343-352 | As written a cut exits 1 without a saved list, although the corrected run would save one; the relaunch repeats the same run, and the first code's two price end markers move its update date |
| UpdatePipeline.BothSeriesMarkUpdated | kostock/update.py:288-292 | With the investor request sent to the logged-in client, a full run of both workers followed by the sentinel moves every listed code's update date to the update date and adds no meta row |
| UpdatePipeline.EndCodesCover | kostock/update.py:310-352 | Every message a walk puts on the buffer carries the code of one of its tasks |
| UpdatePipeline.CodesListed | kostock/update.py:413 | A code in the list of task codes belongs to some task |
| UpdateSupervisor.SuperviseSpec | kostock/update.py:246-261 | After each poll's launch checks no slot is unstarted or failed; the loop is left exactly when both exit codes are 0; a slot that exited with 0 is never started again; launch counts only grow |
| UpdateSupervisor.FirstRunSucceeds | kostock/update.py:246-260 | The first poll starts both workers (an unstarted process counts as not alive with a non-zero exit code) and when both then exit 0 the loop ends with one launch each |
| UpdateSupervisor.FailedSlotRestarts | kostock/update.py:249-253 | A worker that exits with a non-zero code is started again at the next poll |
| UpdateSupervisor.UpdateChartTables | kostock/update.py:246-270 | The polling loop follows the supervisor specification; the sentinel is sent and both checkpoints are removed exactly when the loop is left with both exit codes 0, and otherwise the checkpoints are kept |
| StockDb.ChartTable | kostock/stockdb.py:137 | The chart table of a code is `c_` followed by the code |
| StockDb.ChartTableIsChartTableName | kostock/stockdb.py:265 | The `LIKE 'c_%'` filter selects every chart table and not `stock_info` |
| StockDb.UpsertOhlc | kostock/stockdb.py:134-140 | The price upsert sets open, close, high, low and volume of its date, keeps that date's investor columns (NULL for a new row) and leaves every other date as it was |
| StockDb.UpsertInvestor | kostock/stockdb.py:142-148 | The investor upsert sets fore, inst and indi of its date, keeps that date's price columns (NULL for a new row) and leaves every other date as it was |
| StockDb.UpsertOhlcIdempotent | kostock/stockdb.py:134-140 | Repeating a price upsert changes nothing |
| StockDb.UpsertInvestorIdempotent | kostock/stockdb.py:142-148 | Repeating an investor upsert changes nothing |
| StockDb.UpsertsCommute | kostock/stockdb.py:134-148 | A price upsert and an investor upsert commute, on the same date or on different dates |
| StockDb.StockDB.constructor | kostock/stockdb.py:12-21 | A fresh store has no tables and no rows |
| StockDb.StockDB.AddRowIntoSinfo | kostock/stockdb.py:53-66 | The stock-info upsert sets name, sectors, market and share count of the code, keeps an existing row's cap and gives a new row cap 0; other codes are unchanged |
| StockDb.StockDB.CreateChartSchema | kostock/stockdb.py:108-119 | A new code gets an empty chart table; an existing table makes CREATE TABLE fail and nothing changes |
| StockDb.StockDB.InsertOhlcIntoChart | kostock/stockdb.py:134-140 | The code's table becomes its price upsert; a missing table fails and nothing changes |
| StockDb.StockDB.InsertInvestorIntoChart | kostock/stockdb.py:142-148 | The code's table becomes its investor upsert; a missing table fails and nothing changes |
| StockDb.StockDB.UpdateSinfoDateInMeta | kostock/stockdb.py:221-229 | The `stock_info` meta row is upserted with the new update date and keeps its listing date |
| StockDb.StockDB.InsertListingDateIntoMeta | kostock/stockdb.py:231-236 | The code's meta row is upserted with the new listing date and keeps its update date |
| StockDb.StockDB.UpdateChartDateInMeta | kostock/stockdb.py:238-242 | A plain UPDATE changes the update date of an existing `c_<code>` row only and never creates a row |
| StockDb.LatestUpTo | kostock/stockdb.py:332 | The latest date on or before the given date when one exists, and none exactly when every row is later |
| StockDb.NewestUpTo | kostock/stockdb.py:203-204 | All dates on or before the given date, each once, newest first |
| StockDb.Between | kostock/stockdb.py:190 | All dates within the inclusive range, oldest first |
| StockDb.OldestFrom | kostock/stockdb.py:371-372 | All dates on or after the given date, oldest first |
| StockDb.GetRecentStockPrice | kostock/stockdb.py:319-336 | The close of the latest row dated on or before the date, and none when there is no such row |
| StockDb.GetOhlcPrevFromChart | kostock/stockdb.py:195-207 | At most `prev_days` rows, as many as there are up to that bound, all dated on or before the date, with their price columns |
| StockDb.OhlcPrevNewestFirst | kostock/stockdb.py:203-204 | The rows come newest first (`ORDER BY date DESC`) |
| StockDb.OhlcPrevAreMostRecent | kostock/stockdb.py:203-204 | No row on or before the date that is newer than the oldest returned row is left out: the rows are the most recent ones |
| StockDb.GetRangeFromChart | kostock/stockdb.py:182-193 | Exactly the rows with start <= date <= end (BETWEEN includes both ends), each with its columns, in ascending date order |
| StockDb.GetFuturePriceList | kostock/stockdb.py:338-382 | Always `n + 2` entries: all NaN without an earlier row; otherwise the close of the latest row strictly before the date, then the closes from the date on in ascending order (at most `n + 1`), then NaN padding |
| StockDb.PadWithNaN | kostock/stockdb.py:377-380 | The padding keeps the prefix and fills up to the length with NaN |
| StockDb.FirstCloses | kostock/stockdb.py:371-375 | The closes of the first `limit` dates, in order (`LIMIT n + 1`) |
| StockDb.PriceRowsOf | kostock/stockdb.py:203-206 | The price columns of the given dates, in the given order |
| DateSets.Ascending | kostock/stockdb.py:372 | `ORDER BY date ASC`: every date of the set once, strictly increasing |
| DateSets.Descending | kostock/stockdb.py:204 | `ORDER BY date DESC`: every date of the set once, strictly decreasing |
| DateSets.MinDate | kostock/stockdb.py:372 | The smallest date of a non-empty set |
| DateSets.MaxDate | kostock/stockdb.py:332 | The largest date of a non-empty set |
| KiwoomClient.TotalDelayFormula | qpkg/Kiwoom.py:238-247 | The sleeps over the first n requests total one second per five requests, fifty more per hundred, and 110 once the 700th is reached |
| KiwoomClient.PaceMeetsServerLimits | qpkg/Kiwoom.py:26-28 | The first 100 requests sleep 70 s and the first 700 sleep 600 s in total, the rates the interval constants name |
| KiwoomClient.NextScreen | qpkg/Kiwoom.py:682 | A chart request's screen number `(n + 1) % 200 + 1` is always within 1..200 |
| KiwoomClient.ScreenAfterSteps | qpkg/Kiwoom.py:697 | Each chart request moves the screen number two places on, cyclically within 1..200 |
| KiwoomClient.ScreenCycle | qpkg/Kiwoom.py:738-751 | A screen number returns to itself after exactly 100 chart requests and not before |
| KiwoomClient.PagingStep | qpkg/Kiwoom.py:690-703 | A page that announces more data, whose oldest date is after the start and under the budget, leads to exactly one more request |
| KiwoomClient.PagingFacts | qpkg/Kiwoom.py:678-704 | The paging loop never takes the count past 99; status -1 exactly when it stopped at the budget with more announced; the rows are every page's rows in arrival order; status 0 means the server ran out or the oldest date reached the start |
| KiwoomClient.ConvertAll | qpkg/Kiwoom.py:713 | Every row converted in order, or a failure naming a row whose conversion raises |
| KiwoomClient.Finish | qpkg/Kiwoom.py:705-714 | The DataFrame: an empty result raises at the column selection, a column `int` cannot read raises, otherwise every row is converted and the status is kept |
| KiwoomClient.SignClean | qpkg/Kiwoom.py:710-712 | A leading pair of signs keeps only the first sign and any other string is unchanged |
| KiwoomClient.SignCleanReadsFirstSign | qpkg/Kiwoom.py:762-769 | A doubled sign such as `--5` or `+-5` that `int` rejects reads after cleanup as the number with the first sign |
| KiwoomClient.SignCleanKeepsNumbers | qpkg/Kiwoom.py:710-712 | A string that already reads as an integer passes the cleanup unchanged |
| KiwoomClient.ConvertOhlc | qpkg/Kiwoom.py:759-769 | A candle row converts when and only when all six numeric columns read as integers, and then holds exactly their values |
| KiwoomClient.ConvertInvestor | qpkg/Kiwoom.py:707-713 | An investor row converts when and only when its three quantity columns read as integers, and then holds exactly their values |
| KiwoomClient.FormOptCode | qpkg/Kiwoom.py:671-672 | MONEY maps to '1' and QUANTITY to '2'; anything else is ArgumentError |
| KiwoomClient.TradeOptCode | qpkg/Kiwoom.py:673-674 | TOTAL maps to '0', BUY to '1' and SELL to '2'; anything else is ArgumentError |
| KiwoomClient.StockOptCode | qpkg/Kiwoom.py:675-676 | 1 and 1000 map to their own decimal text; anything else is ArgumentError |
| KiwoomClient.ModiPriceCode | qpkg/Kiwoom.py:731-732 | True maps to '1' and False to '0'; anything else is ArgumentError |
| KiwoomClient.Opt10060Args | qpkg/Kiwoom.py:874-882 | The three opt10060 options succeed together or fail with ArgumentError naming the first bad argument in order |
| KiwoomClient.ApplyChejan | qpkg/Kiwoom.py:190-198 | An order event records an unseen order number as [code, price, quantity] and deletes a seen one only when nothing remains; no other entry changes, and other events change nothing |
| KiwoomClient.AcceptThenFillRestores | qpkg/Kiwoom.py:190-198 | An order accepted and then completely filled leaves the order list as it was |
| KiwoomClient.ApplyChejanAsWritten | qpkg/Kiwoom.py:173 | The handler as written acts only when the delivered value equals the integer 0 |
| KiwoomClient.ChejanAsWrittenNeverRecords | qpkg/Kiwoom.py:161-173 | With `gubun` delivered as the text "0", the handler as written never records an order that the intended handler records |
| KiwoomClient.FormatConcTime | qpkg/Kiwoom.py:183-187 | Six characters become HH:MM:SS, eight become HH:MM:SS.MS, other lengths are unchanged |
| KiwoomClient.FormatConcTimeInverse | qpkg/Kiwoom.py:183-187 | Formatting only inserts separators: removing them gives back the original time text |
| KiwoomClient.StripSeparators | qpkg/Kiwoom.py:183-187 | A character is in the result exactly when it is in the text and is neither `:` nor `.` |
| KiwoomClient.CodeListByMarket | qpkg/Kiwoom.py:591-594 | The pieces of the `;` split without the last one, none of them containing `;` |
| KiwoomClient.CodeListRoundTrip | qpkg/Kiwoom.py:591-594 | The server's `code;code;…;` text reads back as exactly the codes |
| KiwoomClient.ParseConditions | qpkg/Kiwoom.py:317-321 | Each piece split on `^` gives its index and name; a piece without `^` raises IndexError |
| KiwoomClient.ConditionNameList | qpkg/Kiwoom.py:313-322 | One condition per `;` piece except the last |
| KiwoomClient.ParseConditionTexts | qpkg/Kiwoom.py:317-321 | `idx^name` texts of conditions free of `;` and `^` parse back to the conditions |
| KiwoomClient.ConditionTexts | qpkg/Kiwoom.py:317-321 | The server's `idx^name` text of each condition |
| KiwoomClient.ConditionNameListRoundTrip | qpkg/Kiwoom.py:313-322 | The server's `idx^name;idx^name;…;` text reads back as exactly the conditions |
| KiwoomClient.OrderTypeOf | qpkg/Kiwoom.py:836-844 | A known order-type name maps to its number 1..6 and any other value is passed on unchanged |
| KiwoomClient.DealTypeOf | qpkg/Kiwoom.py:838-846 | A known deal-type name maps to its two-digit code and any other value is passed on unchanged |
| KiwoomClient.OrderTypesDistinct | qpkg/Kiwoom.py:836-837 | Different order-type names never share a number |
| KiwoomClient.Kiwoom.constructor | qpkg/Kiwoom.py:40-42 | A new client has request count 0, screen '0' and no open orders |
| KiwoomClient.Kiwoom.CommRqData | qpkg/Kiwoom.py:227-249 | Every request raises the count by one whatever the server answers, and sleeps the pacing delay of the new count |
| KiwoomClient.Kiwoom.RequestPage | qpkg/Kiwoom.py:697-703 | One page request moves the screen number on and counts the request |
| KiwoomClient.Kiwoom.PageThrough | qpkg/Kiwoom.py:682-704 | The paging loop makes exactly the requests the specification gives, and the count and screen number advance by that many |
| KiwoomClient.Kiwoom.Fetch | qpkg/Kiwoom.py:678-714 | At the budget of 99 it answers (-1, empty) without a request; otherwise it pages through and builds the result, and the count never exceeds 99 |
| KiwoomClient.Kiwoom.ReqOpt10081 | qpkg/Kiwoom.py:717-770 | A bad `modi_price` raises before any request; otherwise the candle pages are fetched and converted |
| KiwoomClient.Kiwoom.ReqOpt10060 | qpkg/Kiwoom.py:655-714 | A bad option raises before any request; otherwise the investor pages are fetched and converted |
| KiwoomClient.Kiwoom.ReceiveChejanData | qpkg/Kiwoom.py:155-198 | The order list becomes the intended order-event update and the conclusion time is formatted |
| KiwoomClient.Kiwoom.SendOrder | qpkg/Kiwoom.py:834-850 | The screen number becomes `int(n) + 1 % 200 + 1`, that is n + 2 with no wrap-around; order and deal types are looked up or passed on |
| PatternScan.ChooseMode | kostock/backtester.py:242-249 | BOTH when both thresholds are non-zero, FORE or INST when only that one is, and an error when both are zero (same rule at kostock/chart_extractor.py:151-158) |
| PatternScan.CompareQuantityBoth | kostock/backtester.py:264-277 | BOTH holds exactly when FORE and INST both hold; a zero or missing quantity never matches (same at kostock/chart_extractor.py:173-186) |
| PatternScan.StreakIsRunLength | kostock/backtester.py:251-259 | The day counter after a row is the length of the run of matching rows ending at it |
| PatternScan.StreakExtends | kostock/backtester.py:256-257 | Matching rows raise the counter by one each |
| PatternScan.HitsBelow | kostock/backtester.py:251-261 | The selected rows among the first n are row indices below n (which ones is stated by HitsBelowSound and HitsBelowComplete) |
| PatternScan.HitsBelowSound | kostock/backtester.py:260-261 | Rows are selected in chart order, exactly where the counter equals `days` |
| PatternScan.HitsBelowComplete | kostock/backtester.py:260-261 | Every row whose counter equals `days` is selected |
| PatternScan.OneHitPerRun | kostock/backtester.py:256-261 | For days >= 1 two selected rows have a non-matching row between them, so a run yields at most one selection |
| PatternScan.HitIsDaysthOfRun | kostock/backtester.py:256-261 | A selected row is the `days`-th row of its run: the `days` rows up to it match and the row before them does not |
| PatternScan.ZeroDaysHitsNonMatches | kostock/backtester.py:258-261 | With days = 0 the selected rows are exactly the non-matching ones |
| PatternScan.CapturesAt | kostock/chart_extractor.py:168-169 | One capture per selected index |
| PatternScan.CapturesAtSnoc | kostock/chart_extractor.py:168-169 | Each selection appends `[code, date, group]` with that row's date |
| PatternScan.IntervalSumPrefix | kostock/backtester.py:212-214 | The first q intervals are p + 1 and the rest p, where (p, q) = divmod(window_size - 1, len(pattern) - 1) |
| PatternScan.IntervalSum | kostock/backtester.py:212-218 | The x-offset where segment k starts is never negative (its value is stated by IntervalSumPrefix) |
| PatternScan.IntervalsCoverWindow | kostock/backtester.py:212-214 | The intervals sum to window_size - 1 |
| PatternScan.SegmentPoints | kostock/backtester.py:218-221 | The inner loop adds the interval's points with consecutive x-coordinates |
| PatternScan.TransPatToFrpat | kostock/backtester.py:211-222 | The polyline starts at (0, pattern[0]), x-coordinates run 0, 1, 2, … and there are exactly window_size points; an empty pattern fails at pattern[0] and a one-value pattern divides by zero (same at kostock/chart_extractor.py:119-130) |
| PatternScan.ZeroMoveStalls | kostock/backtester.py:144-145 | The default move window_size // 10 is 0 for small windows, and a window that does not match then never advances |
| PatternScan.ScanFrom | kostock/backtester.py:161-182 | The captured indices from a window offset on are all inside the chart |
| PatternScan.ScanAdvance | kostock/backtester.py:161-182 | A matching window records its last index and jumps a whole window; any other window moves by the move value |
| PatternScan.ScanDone | kostock/backtester.py:163-165 | The scan stops at the first window that does not fit in the chart |
| PatternScan.ScanFacts | kostock/chart_extractor.py:66-90 | The captured indices are increasing, each is the last index of a full matching window, and captured windows never overlap |
| PatternScan.WellSpacedCons | kostock/backtester.py:177-181 | A matching full window followed by well-spaced later captures gives well-spaced captures with its own last index in front |
| PatternScan.WellSpacedLater | kostock/backtester.py:169-182 | Captures well spaced from a later offset are well spaced from an earlier one |
| KostockBackTester.TagParts | kostock/backtester.py:50-51 | A test-list name is the code, `_`, and the decimal count |
| KostockBackTester.TagInjective | kostock/backtester.py:50-51 | Equal names come from the same code and count |
| KostockBackTester.TagDistinct | kostock/backtester.py:50-55 | Different code and count pairs give different names |
| KostockBackTester.Bumped | kostock/backtester.py:55 | After n inserts a code's counter has grown by n |
| KostockBackTester.BumpedSnoc | kostock/backtester.py:55 | One more insert raises the code's counter by one more |
| KostockBackTester.Entries | kostock/backtester.py:50-54 | One test-list entry per capture |
| KostockBackTester.EntriesSnoc | kostock/backtester.py:50-54 | The entry of one more capture is named with the next count and keeps the capture's date and group |
| KostockBackTester.BackTester.constructor | kostock/backtester.py:30-35 | A new back-tester has an empty test list and no per-code counts |
| KostockBackTester.BackTester.Insert | kostock/backtester.py:43-55 | Not exactly three elements is ArgumentError; otherwise `[code_k, date, group]` is appended with k the number of earlier inserts of the code, whose counter grows by one, and the name differs from every name issued before |
| KostockBackTester.BackTester.DeleteAll | kostock/backtester.py:57-58 | The list is emptied and the per-code counters are kept, so names are not reused |
| KostockBackTester.BackTester.Delete | kostock/backtester.py:60-64 | No argument pops the last entry (IndexError on an empty list); an argument removes its first occurrence (ValueError when absent) |
| KostockBackTester.BackTester.GetTestList | kostock/backtester.py:66-67 | The copy returned equals the test list |
| KostockBackTester.BackTester.InsInstitutionCondition | kostock/backtester.py:224-261 | Both thresholds zero is ArgumentError with nothing inserted; otherwise exactly the rows where the streak counter equals `days` are inserted, in chart order, numbered on from the code's count |
| KostockBackTester.BackTester.InsertStreakHits | kostock/backtester.py:251-261 | The row loop inserts exactly the specification's selected rows |
| KostockBackTester.BackTester.AdvanceRow | kostock/backtester.py:255-261 | One row of the streak loop keeps the list equal to the inserted captures of the rows selected so far |
| KostockBackTester.BackTester.InsertAt | kostock/backtester.py:261 | Inserting the capture at a selected row extends the list by that capture's entry |
| KostockBackTester.BackTester.InsertCapture | kostock/backtester.py:43-55 | Inserting one capture extends the list by its entry and bumps the code's counter |
| KostockBackTester.BackTester.InsChartPattern | kostock/backtester.py:125-182 | An empty pattern fails with IndexError and a one-value pattern with ZeroDivisionError, inserting nothing; otherwise exactly the captures of the window scan, with the default move window_size // 10, are inserted in order |
| KostockBackTester.BackTester.InsertWindows | kostock/backtester.py:161-182 | The window loop inserts exactly the scan specification's captures |
| ChartExtractor.CaptureInstCond | kostock/chart_extractor.py:132-170 | Both thresholds zero is ValueError; otherwise `[code, date, group]` for exactly the rows where the consecutive-match counter equals `days`, in chart order |
| ChartExtractor.CaptureChartPattern | kostock/chart_extractor.py:29-90 | An empty pattern fails with IndexError and a one-value pattern with ZeroDivisionError; otherwise the captures of the window scan with the default move, in increasing date order and without overlap |
| ChartExtractor.ScanWindows | kostock/chart_extractor.py:66-90 | The window loop returns exactly the scan specification's captures |
| TestList.FirstIndex | kostock/backtester.py:64 | The first position of an entry in the list |
| TestList.RemoveFirst | kostock/backtester.py:64 | `list.remove` drops one occurrence: the multiset loses exactly that entry |
| TestList.RemoveFirstAt | qpkg/Trader.py:63 | Removing an entry whose first occurrence follows `front` gives `front` plus the rest |
| QpkgTrader.LatestSharingIsLatest | qpkg/Trader.py:50-53 | The backward scan finds the latest entry whose first seven characters are `code_`, or reports that none has them |
| QpkgTrader.LatestSharingAppend | qpkg/Trader.py:50-53 | Entries of other prefixes appended later do not change the entry found |
| QpkgTrader.LatestSharing | qpkg/Trader.py:50-51 | The backward scan's answer, when there is one, is a position in the list |
| QpkgTrader.Prefix7 | qpkg/Trader.py:50 | `code[:7]` has at most seven characters and is a prefix of the code |
| QpkgTrader.Suffix7 | qpkg/Trader.py:52 | `code[7:]` is what follows the seven-character prefix |
| QpkgTrader.NextCodeNumbers | qpkg/Trader.py:49-53 | A six-character code gets suffix 0 when no entry shares its prefix, else the suffix of the latest such entry plus one; a suffix that is not an integer raises |
| QpkgTrader.RepeatedInsertCounts | qpkg/Trader.py:49-54 | Inserting a code twice gives `code_0` and then `code_1` |
| QpkgTrader.DeleteThenInsertReuses | qpkg/Trader.py:50-63 | Deleting a code's latest entry and inserting the code again reuses that entry's name |
| QpkgTrader.ShortCodeRepeatRaises | qpkg/Trader.py:49-52 | A code of four characters or fewer inserted a second time raises ValueError, because the seven-character prefix swallows part of the suffix |
| QpkgTrader.BackTester.constructor | qpkg/Trader.py:21-25 | A new back-tester has an empty test list |
| QpkgTrader.BackTester.Insert | qpkg/Trader.py:42-54 | Not exactly three elements is ArgumentError; otherwise one entry named by the numbering rule is appended and nothing else changes, and the caller's `data[0]` is rewritten in place to that name |
| QpkgTrader.BackTester.DeleteAll | qpkg/Trader.py:56-57 | The list is emptied |
| QpkgTrader.BackTester.Delete | qpkg/Trader.py:59-63 | No argument pops the last entry (IndexError on an empty list); an argument removes its first occurrence (ValueError when absent) |
| QpkgTrader.BackTester.GetTestList | qpkg/Trader.py:65-66 | The copy returned equals the test list |
| QpkgUtils.GetLatestTradingDate | qpkg/qutils.py:105-116 | The latest weekday on or before the date that is not a closed day: the date itself when it qualifies, every day skipped is a weekend or closed, and no result when no earlier day qualifies |
| KostockUtils.GetLatestTradingDate | kostock/qutils.py:25-39 | The same search with 31 December of the date's year added to the holidays, so the result is never that day |
| KostockUtils.ConvIntToDate | kostock/qutils.py:65-74 | The split year·10000 + month·100 + day gives back the number, and an impossible calendar date is ValueError |
| KostockUtils.YmdRoundTrip | kostock/qutils.py:71-74 | The YYYYMMDD text of a valid date, read as a number and split, gives back the date |
| KostockUtils.Ymd | kostock/qutils.py:89 | A valid date's `%Y%m%d` text has eight digits |
| KostockUtils.SplitYmdNumber | kostock/qutils.py:71-73 | Integer division and remainder by 10000 and 100 recover year, month and day |
| KostockUtils.GetWicsUrl | kostock/qutils.py:81-92 | A fixed prefix, then `dt=` and the 8-digit date that reads back as the date, then `&sec_cd=G` and the code (identical to qpkg/qutils.py:130-141) |
| KostockUtils.GetCompMainUrl | kostock/qutils.py:95-104 | The main-page prefix ending in `gicode=A`, the code, then the fixed suffix (identical to qpkg/qutils.py:143-152) |
| KostockUtils.GetCompCorpUrl | kostock/qutils.py:107-116 | The corporate-page prefix ending in `gicode=A`, the code, then the fixed suffix (identical to qpkg/qutils.py:154-163) |
| KostockUtils.CompUrlsDetermineCode | kostock/qutils.py:95-116 | Each page's URL determines its code, since different codes give different URLs, and a main-page URL is never a corporate-page URL |
| Calendar.Weekday | kostock/qutils.py:36 | `date.weekday()`, within 0..6 with 5 and 6 the weekend |
| Calendar.YearEnd | kostock/qutils.py:34 | 31 December of a date's year is on or after the date and in the same year |
| Calendar.YearOf | kostock/qutils.py:34 | The year of a day number is the year whose days contain it |
| Text.Split | qpkg/Kiwoom.py:316 | `str.split` gives at least one piece and no piece contains the separator |
| Text.SplitJoin | qpkg/Kiwoom.py:316 | Splitting pieces joined with a separator they lack gives the pieces back |
| Text.JoinSplit | qpkg/Kiwoom.py:316 | Joining the pieces of a split gives the text back |
| Text.SplitTerminated | qpkg/Kiwoom.py:591-594 | Splitting pieces each followed by the separator gives the pieces and a final empty piece |
| Text.NatToString | kostock/backtester.py:50 | `str` of a count is a non-empty digit string |
| Text.PadNat | kostock/qutils.py:89 | A number below 10^width written with leading zeros has exactly that width and reads back as the number |
| Text.IntToString | qpkg/Trader.py:52 | `str` of an integer is never empty |
| Text.IntToStringRoundTrip | qpkg/Trader.py:52 | `int(str(n)) == n` for every integer |
| Text.ParseNatToString | kostock/backtester.py:50 | `str` of a count reads back as the count |

## Left out

- PyQt and the ActiveX control (the event loops, timers, `CommRqData`, `GetCommDataEx`) are not modelled. What the server answers to a client's i-th request is a parameter, and chejan events arrive as method arguments.
- The pywinauto login and the connection check are not modelled. The login's outcome is the boolean `connected`.
- Real concurrency is not modelled: processes, the queue, the lock and the log listener. The two workers and the consumer are three sequential steps. How the two workers' messages interleave on the buffer is not modelled; the pipeline lemmas consider all price messages followed by all investor messages. The price worker reads chart tables that the consumer may be writing; the model gives it a snapshot.
- Network and file access is not modelled. The scraped code lists, the holidays (`get_holidays`), the closed-days Excel file and the pickle and JSON files become parameters or `Option` values.
- `update_sinfo_and_schema` is not modelled. It scrapes sector pages and diffs the stock list, and it indexes `[0]` into codes that `get_code_list_from_sinfo` has already flattened to strings.
- The string literal at `kostock/update.py:417-618` is dead code and is not modelled.
- `if data:` on a pandas DataFrame raises ValueError. The worker model reads it as "the chunk has rows", the evidently intended test. As written the price worker's cut raises there, before the pickle dump, so no checkpoint is ever written. The relaunch then starts from the full list again; `UpdatePipeline.AsWrittenCutRestartsFromScratch` shows this and "## Findings" lists it.
- The model gives each database statement its committed effect. The source closes the connection at `kostock/update.py:55` (`db.close()` shuts the cursor and the connection, `kostock/stockdb.py:23-25`), before `update_chart_tables` at line 58. The consumer and the price worker's read at line 324 then use the closed handle. `receive_chart_data` never commits either, and MySQLdb leaves autocommit off. None of this is modelled.
- Each chunk's rows are taken newest first, so `data.index[-1]` is the chunk's oldest day.
- Dates are day numbers. `strptime`/`strftime` parsing and formatting appear only where they are the subject (the YYYYMMDD split and the WICS URL). `req_opt*` compares its start date with the oldest fetched date as `YYYYMMDD` strings, and the model keeps that text comparison.
- A Python `int` is unbounded, like Dafny's. The `INT UNSIGNED` column range of MariaDB is not modelled.
- `int()` accepts surrounding whitespace and underscores. The model's `ParseInt` accepts only an optional sign followed by digits.
- The chart queries take the table's map. The error MySQL raises when a table is missing is modelled for the writes only.
- `tests/test_stockdb.py` expects `get_ohlc_prev_from_chart` rows oldest first, but the SQL orders them `DESC`. The model follows the SQL.
- `KostockBackTester.BackTester.InsChartPattern`: requires `window_size >= 1` and an effective move of at least 1. A move of 0 can loop forever (see `PatternScan.ZeroMoveStalls`), and an empty window raises in `max`.
- `KostockBackTester.BackTester.InsertWindows`: the same window and move preconditions.
- `ChartExtractor.CaptureChartPattern`: the same window and move preconditions.
- `ChartExtractor.ScanWindows`: the same window and move preconditions.
- The window scan does not model floating point. `_choose_chart_price`, rolling means, the diff-ratio test and `frdist` become one uninterpreted `matches` predicate on the window offset, and the y-values of `_trans_pat_to_frpat` are kept as the segment and step that produce them.
- `back_test`, `TestResult`, `nangmean`, plotting, HTML output and the SQLAlchemy `save`/`load` are not modelled. These are floating-point statistics and I/O.
- `set_tax`, `set_commission` and `set_stock_db` are not modelled. They only store values that the unmodelled `back_test` uses.
- `KostockBackTester.BackTester.Insert`: `defaultdict` keys can be any hashable value. The model has text codes only, and it reports a non-text code as the TypeError of `'_'.join`.
- Python list aliasing is not modelled. The kostock back-tester stores a fresh list. The qpkg `insert` stores the caller's list itself: `QpkgTrader.BackTester.Insert` returns the rewritten `data`, but later changes through that alias are not modelled.
- `QpkgTrader.NextCodeNumbers`: proved for six-character codes, the stock-code format. Shorter codes are covered only by `ShortCodeRepeatRaises`.
- `KiwoomClient.Kiwoom.Fetch`: requires the request count to be at most 99. The constructor and every modelled request keep that bound. Other TRs that could raise the count past 99 are not modelled.
- `KiwoomClient.Kiwoom.PageThrough`: requires the count to be below 99 on entry, which `Fetch` checks before calling it.
- `KiwoomClient.Kiwoom.ReqOpt10081`: the same count bound as `Fetch`.
- `KiwoomClient.Kiwoom.ReqOpt10060`: the same count bound as `Fetch`.
- `QpkgUtils.GetLatestTradingDate`: requires a date on or after 0001-01-01. Python's `date` cannot go lower; stepping below that day is reported as no result.
- `KostockUtils.GetLatestTradingDate`: the same lower bound on the date.
- `UpdatePlan.GetUpdateDate`: the same lower bound on the configured date and on today.
- `UpdateWorkers.TransmitOhlcData`: requires a plan whose codes are distinct. Every plan built by `ChartUpdateDict` is such a dictionary.
- `UpdateWorkers.TransmitInvestorData`: the same distinct-codes requirement on the plan.
- The client methods `req_opt10001`, `req_opt10086`, `get_master_*`, `send_condition` and `get_tr_count` are not modelled. The update pipeline calls none of them, and they are plain ActiveX calls.
- The `chejan` price formatting with thousands separators (`format(…, ',')`) is not modelled. The event's FIDs 900, 901, 902 and 910 are read as numbers, which is the corrected handler (see "## Findings"). The order list stores the price as a number.
- The `qpkg/qutils.py` URL builders are textually identical to those of `kostock/qutils.py`. They are modelled once in `KostockUtils`.
- The supervisor's polling is bounded by the finite list of observations given. An endless run of failing workers is the case where that list runs out.
- Configuration (`config.py`, `kostock/configurer.py`, `kostock/data.py`) is not modelled. `START_DATE`, `UPDATE_DATE` and `MANUAL_CHART_TRANSFER` are parameters.

## Findings

| source | as written | input that shows it | evidently intended | confidence | as-written member | corrected member |
|---|---|---|---|---|---|---|
| kostock/update.py:369 | `kiwoom.req_opt10060(...)` is looked up on the imported `kiwoom` module, whose `req_opt10060` is a method of the client class; every call raises and is swallowed by `except Exception`, so the investor worker sends nothing and exits 0, and a single price run gives no code its second end marker (a relaunched price worker that re-sends a finished code still does, see `UpdatePipeline.CrashRelaunchMovesOnPriceOnly`) | any non-empty task list | `kwm.req_opt10060(...)` on the logged-in client, as the price worker does at line 312 | medium (the `kostock.kiwoom` module is not part of this model; `qpkg/Kiwoom.py` defines `req_opt10060` only as a method); not executed | UpdatePipeline.AsWrittenNeverMarksUpdated | UpdatePipeline.BothSeriesMarkUpdated |
| qpkg/Kiwoom.py:173 | `if gubun == 0:` compares the event's `gubun` with the integer 0, but the control delivers it as the text `"0"` (its docstring at line 161 types it `str`), so no order is ever recorded | an order event with `gubun = "0"` and a new order number | compare with `'0'` and also convert FIDs 900, 901, 902 and 910 with `int()`: `GetChejanData` returns text, so with the comparison alone `format(text, ',')` at lines 181-182 raises ValueError and `remained_qty == 0` at line 197 never holds. With both, an accepted order is recorded and removed once filled | medium (the ActiveX control's argument types come from its documentation); not executed | KiwoomClient.ChejanAsWrittenNeverRecords | KiwoomClient.ApplyChejan |
| kostock/update.py:346 | `if data:` asks the partial chunk's DataFrame for its truth value (`req_opt10081` returns a DataFrame even at status -1, `qpkg/Kiwoom.py:737`), which raises ValueError, so a cut price worker exits 1 before the pickle dump at lines 349-350. The supervisor relaunches it on the full list, and it re-sends every code it had finished, whose second price end marker moves the update date without investor rows | a plan of two codes where the first is answered and the second is cut by the request limit | `if not data.empty:`, so the cut saves the unfinished suffix and the next run resumes there without repeating a finished code | medium (the `kostock.kiwoom` module is not part of this model; the DataFrame return is that of `qpkg/Kiwoom.py`); not executed | UpdatePipeline.AsWrittenCutRestartsFromScratch | UpdatePipeline.MarkedNotSaved |
| kostock/update.py:84-87 | `get_update_date` calls `qutils.get_latest_trading_date(update_date, CLOSED_DAYS_EXCEL_PATH)` with two arguments, but the `kostock.qutils` that update.py imports defines it with three (`kostock/qutils.py:25`), so the call raises TypeError and `Update.run` stops at line 43 | any run | the two-parameter closed-days search of `qpkg/qutils.py:105`, whose Excel path argument the call passes | high; not executed | UpdatePlan.GetUpdateDateAsWrittenRaises | UpdatePlan.GetUpdateDate |

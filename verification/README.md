# Investor-trading collector, modelled in Dafny

This project models the back end of a Korean stock-market tool. The tool scrapes the daily
quotation pages of each listed instrument, keeps the institution and foreigner net-buy figures,
and stores one trading record per instrument and trade day. Around that sit:

- the rules the service layer checks before it stores an instrument or a trading record;
- the in-place updates of both entities;
- the background collection run, with its status record and its start, stop and reset handlers;
- the instrument search of the REST layer;
- the instrument-list scraper.

Each source file has its own Dafny module:

| module | file | models |
|---|---|---|
| `CollectorParsing` | `collector_parsing.dfy` | `parse_date` and `parse_number` |
| `DataCollector` | `data_collector.dfy` | `crawl_trading_data`, `collect_and_save_trading_data`, `initialize_stock_list`, `collect_all_stocks_data` |
| `CollectorView` | `collector_view.dfy` | the collection status record, `update_progress`, the start, stop and reset handlers, and `collect_data_background` |
| `TradingService` | `trading_service.dfy` | the trading-record validators, the create and update operations, and the dates stored for a code |
| `TradingModel` | `trading_model.dfy` | the `StockInvestorTrading` entity (a class) and the table of stored records |
| `StockService` | `stock_service.dfy` | the instrument validators and the create, read, update, accum and delete operations |
| `StockModel` | `stock_model.dfy` | the `StockList` entity (a class) and the table of stored instruments |
| `StockView` | `stock_view.dfy` | the instrument handlers: id guards, body checks, status codes, and the search merge |
| `StockListCollector` | `stock_list_collector.dfy` | the instrument-list scraper, its fallback, and the two predefined lists |

Helper modules carry Python's own semantics:

- `PyText`: `str.strip` with Python's whitespace set, `isdigit`, `replace`, and `int()` on text.
- `Dates`: the proleptic calendar, plus `strptime`/`strftime` for `%Y.%m.%d` and `%Y-%m-%d`.
- `Patterns`: the two regular expressions of the validators, including the newline that `$` admits.
- `Values`: JSON request values, `isinstance(v, int)`, and `to_dict` values.
- `Wrappers`: `Option` and `Result`.

How the environment is modelled:

- **The web.** A site is a sequence of responses, one per page in page order. A page past the end
  reads as a failed request.
- **Quotation pages.** The collector gets a function from stock code to such a site.
- **The database.** Each table is a class holding a map from id to entity object, plus the next
  id. `StockTable.Valid()` includes the uniqueness of stock codes. `TradingTable.Valid()` does
  not hold the uniqueness of the (code, date) key. That uniqueness is a separate predicate,
  `KeysUnique`, which the insert, the updates and the save loop are proved to preserve.
- **Loops over tables.** Each is proved against a pure function on a `Store` value
  (`SaveAll`, `SeedAll`, `SaveEach`), and the properties are proved about those functions.
- **The background thread.** It is a sequential method over the status object. The stop handler
  runs at the loop's check for index `stopAt` (`None` = never).
- **Clock readings** (start and end stamps) and the date cut-off are parameters.

## Model

| member | source | states |
|---|---|---|
| CollectorParsing.ParseDateOfDotted | backend/services/data_collector.py:91-93 | a real calendar date printed as `YYYY.MM.DD` parses to the same date in zero-padded `YYYY-MM-DD` form |
| CollectorParsing.ParseDateOutput | backend/services/data_collector.py:91-96 | every accepted cell gives a real calendar date in ISO form, and reading it back with `%Y-%m-%d` (as the crawl does) gives the date that was parsed |
| CollectorParsing.ParseDateNeedsDots | backend/services/data_collector.py:92 | a stripped cell whose fifth character is not `.` is refused (`None`): only the dotted format is accepted |
| CollectorParsing.ParseDatePadded | backend/services/data_collector.py:92-93 | worked example: `2024.01.15` becomes `2024-01-15` |
| CollectorParsing.ParseDateUnpadded | backend/services/data_collector.py:92-93 | worked example: surrounding spaces are stripped and an unpadded month and day are accepted and padded |
| CollectorParsing.ParseDateNotOnCalendar | backend/services/data_collector.py:92-96 | worked example: 29 February of a non-leap year is refused |
| CollectorParsing.ParseNumberOfShown | backend/services/data_collector.py:109-112 | every integer, printed with thousands separators and an optional plus sign, parses back to itself |
| CollectorParsing.ParseNumberOfBlank | backend/services/data_collector.py:111-112 | a cell that is empty or all whitespace reads as 0 |
| CollectorParsing.ParseNumberGrouped | backend/services/data_collector.py:111-112 | worked example: `70,000` reads as 70000 |
| CollectorParsing.ParseNumberPlusSign | backend/services/data_collector.py:111-112 | worked example: `+1,234` reads as 1234 |
| CollectorParsing.ParseNumberMinusSign | backend/services/data_collector.py:111-112 | worked example: `-567` reads as -567, so the minus sign is kept |
| CollectorParsing.ParseNumberOddCells | backend/services/data_collector.py:111-115 | a lone `-` reads as 0, and text that is no integer gives `None` (the `ValueError` path) |
| Dates.StrptimeFormatWith | backend/services/data_collector.py:92-93 | `strptime` reads back every date that `strftime` writes in the same dotted or dashed format |
| PyText.StripEmptyIffAllSpace | backend/services/data_collector.py:168-170 | a text is blank after `strip()` exactly when it is all whitespace |
| PyText.StripIdempotent | backend/services/trading_service.py:148-151 | stripping twice is stripping once, so the stripped key the service checks is the key it stores |
| Patterns.MatchesSixDigitsExactly | backend/services/trading_service.py:34-36 | `^\d{6}$` matches six digits, or six digits followed by one newline, and nothing else |
| DataCollector.RowFilter | backend/services/data_collector.py:162-191 | a row is kept iff it has more than six cells, its first cell parses as a date not older than the cut-off, and columns 1, 5 and 6 parse as numbers; it ends the crawl iff its date parses and is older; a kept row carries that ISO date |
| DataCollector.ScanPage | backend/services/data_collector.py:160-199 | the row loop of one page returns the accepted rows in order and whether it stopped at an older row, exactly as the scan specification says |
| DataCollector.CrawlPages | backend/services/data_collector.py:135-216 | the page loop returns exactly the crawl specification `CrawlFrom(site, 0, classify)` |
| DataCollector.CrawlTradingData | backend/services/data_collector.py:118-216 | `crawl_trading_data` returns `Crawl(site, cutoff)` |
| DataCollector.ScanIsKeptPrefix | backend/services/data_collector.py:162-199 | within a page the crawl keeps exactly the accepted rows before the first older row, in reading order, and reports the older row when there is one |
| DataCollector.ClassifierKeepsRecentRows | backend/services/data_collector.py:176-181 | every row the filter keeps is dated on or after the cut-off, and its date passes the trading validator |
| DataCollector.CrawlRowsAreRecent | backend/services/data_collector.py:176-199 | every row the crawl returns is no older than the cut-off and has a zero-padded ISO date |
| DataCollector.BrokenPageEndsCrawl | backend/services/data_collector.py:144-154 | a breaking page ends the crawl: the result is that of the pages before it, and later pages are never read |
| DataCollector.CrawlGrowsAtEnd | backend/services/data_collector.py:194-205 | reading more pages only appends rows at the end, so output order is page order, then row order |
| DataCollector.CrawlKeepsRepeats | backend/services/data_collector.py:193-199 | no de-duplication: the same accepted row on two pages is returned twice |
| DataCollector.CrawledRowCheck | backend/services/data_collector.py:294-301 | the trading service accepts a crawled row iff the instrument's code and name pass and the close price is not negative; an accepted row is built as `SavedRecord` |
| DataCollector.SaveAllOnlyAdds | backend/services/data_collector.py:284-308 | saving only adds: stored records stay as they were, at most one record per crawled row is added, and added ids are consecutive from the next id |
| DataCollector.SaveAllAddsAcceptedRows | backend/services/data_collector.py:294-304 | every added record is the saved form of an accepted crawled row |
| DataCollector.SaveAllStoresAcceptedRows | backend/services/data_collector.py:284-308 | after saving, every accepted crawled row has its (code, date) key stored, whether it was new or already there |
| DataCollector.SaveAllKeepsKeysUnique | backend/services/data_collector.py:286-291 | the save loop never stores two records with the same (code, date), even when the crawl repeats a date |
| DataCollector.SaveAllKeepsWellFormed | backend/services/data_collector.py:294-301 | records saved from crawled rows are well-formed (six-digit code, ISO date, valid name, non-negative price) |
| DataCollector.SaveAllSucceedsIffNewRow | backend/services/data_collector.py:283-311 | the save reports success iff some crawled row is accepted and its date was not yet stored for the instrument |
| DataCollector.SaveRow | backend/services/data_collector.py:285-307 | one pass of the save loop: a record is created iff the row is accepted and its date is new; the table becomes `SaveOne` of the old table |
| DataCollector.SaveRows | backend/services/data_collector.py:283-308 | the save loop leaves the table at `SaveAll` of the crawl and counts exactly the records it created |
| DataCollector.CollectAndSaveFrom | backend/services/data_collector.py:272-311 | the crawl is saved with `SaveAll`, and the result is true iff a record was created (so an empty crawl gives false) |
| DataCollector.CollectAndSaveTradingData | backend/services/data_collector.py:260-315 | `collect_and_save_trading_data` with the row filter of `crawl_trading_data` |
| DataCollector.SeedAllOnlyAdds | backend/services/data_collector.py:230-250 | seeding only adds instruments; stored ones stay as they were |
| DataCollector.SeedAllAddsListed | backend/services/data_collector.py:239-245 | every added instrument is an accepted list entry, stored with its stripped code and name, no init date and zero accum-inits |
| DataCollector.SeedAllStoresSeedable | backend/services/data_collector.py:230-250 | after seeding, the code of every accepted entry is stored |
| DataCollector.SeedAllKeepsWellFormed | backend/services/data_collector.py:239-242 | seeding keeps every stored instrument well-formed |
| DataCollector.DefaultListIsSeedable | backend/services/data_collector.py:27-78 | every entry of the built-in list passes the stock service's checks and has a stripped code |
| DataCollector.DefaultCodesStored | backend/services/data_collector.py:230-253 | after `initialize_stock_list` every code of the built-in list is stored |
| DataCollector.SeedStock | backend/services/data_collector.py:231-250 | one pass of the seeding loop: an instrument is created iff the entry is accepted and its code is new; the table becomes `SeedOne` of the old table |
| DataCollector.InitializeStockList | backend/services/data_collector.py:219-253 | the table ends as `SeedAll` of the built-in list, and the result is always true |
| DataCollector.SaveEachOnlyAdds | backend/services/data_collector.py:346-369 | a whole collection run only adds trading records |
| DataCollector.SaveEachStoresAcceptedRows | backend/services/data_collector.py:346-369 | after a run, every accepted row of every instrument has its key stored, and keys stay unique |
| DataCollector.FailedLabels | backend/services/data_collector.py:356-358 | there is one failure label per instrument whose collection did not succeed |
| DataCollector.ResultsOf | backend/services/data_collector.py:330-360 | successes plus failures equal the total, which is the number of listed instruments, and the failure list has one entry per failure |
| DataCollector.ResultsOfSnoc | backend/services/data_collector.py:353-358 | each instrument increments exactly one of the two counters, and a failure also appends its label |
| DataCollector.Tally | backend/services/data_collector.py:353-358 | counting one more instrument gives the results of the longer list |
| DataCollector.CollectEach | backend/services/data_collector.py:346-369 | the per-instrument loop leaves the trading table at `SaveEach` of the crawls, and its statistics are `ResultsOf` the success flags of that run |
| DataCollector.SeedAndList | backend/services/data_collector.py:338-343 | the instrument table is seeded, and the listing holds every stored instrument exactly once, under its id, in increasing id order |
| DataCollector.CollectAllStocksData | backend/services/data_collector.py:318-370 | seed, list every stored instrument, then crawl and save each; the statistics count each instrument once |
| CollectorView.CollectionStatus.constructor | backend/views/data_collector.py:20-32 | the status starts idle with zero counts, no times and an empty failure list |
| CollectorView.CollectionStatus.Reset | backend/views/data_collector.py:35-50 | every entry goes back to its idle default |
| CollectorView.CollectionStatus.UpdateProgress | backend/views/data_collector.py:53-69 | phase, stock, progress, counts and error are overwritten; the failure list gains the entry only when it is non-empty and new |
| CollectorView.Progressed | backend/views/data_collector.py:59-69 | `update_progress` leaves the run flag, the total and both times as they were |
| CollectorView.AppendFailedFacts | backend/views/data_collector.py:68-69 | the failure list only grows, holds exactly the old entries plus a non-empty new one, and never gains a duplicate |
| CollectorView.YearsRule | backend/views/data_collector.py:242-246 | `years` is accepted iff it is absent (default 3), an integer from 1 to 10, or `true` (a bool is an int) |
| CollectorView.StartCollection | backend/views/data_collector.py:233-269 | 200 iff no run is going and `years` is accepted, and the status is then reset; otherwise 400 and the status is unchanged |
| CollectorView.StopCollection | backend/views/data_collector.py:291-307 | 400 unless a run is going; otherwise 200, the run flag is cleared and the phase becomes stopping |
| CollectorView.ResetCollection | backend/views/data_collector.py:329-336 | 400 while a run is going, with the status unchanged; otherwise 200 and the idle status |
| CollectorView.Processed | backend/views/data_collector.py:109-112 | the loop processes every instrument unless a stop request arrives before the last one |
| CollectorView.PercentBelowHundred | backend/views/data_collector.py:116 | the progress published inside the loop stays within 0..99 |
| CollectorView.AppendAllFailedContents | backend/views/data_collector.py:68-69 | the failure list after many updates holds exactly the old entries and the non-empty new ones, without duplicates |
| CollectorView.LoopStatusLast | backend/views/data_collector.py:114-118 | after one or more instruments the status shows the last one, its percentage below 100, the collecting phase and no error |
| CollectorView.LoopStatusKeeps | backend/views/data_collector.py:109-145 | the loop keeps the run flag, total and times, and its failure list is the old one plus the failure labels of the processed instruments |
| CollectorView.StockStepFailures | backend/views/data_collector.py:125-132 | an instrument's label goes to the failure list exactly when its collection failed |
| CollectorView.EndingOf | backend/views/data_collector.py:147-162 | a cancelled run reports the last progress computed in the loop, below 100 |
| CollectorView.FinishKeeps | backend/views/data_collector.py:147-166 | on every path the run flag is cleared and the end time is set; total, start time and failure list are kept |
| CollectorView.EndingPhase | backend/views/data_collector.py:151-162 | a run over a non-empty list ends completed iff no stop arrived, cancelled iff the stop came after the first instrument, and in error otherwise |
| CollectorView.EndingCounts | backend/views/data_collector.py:148-162 | completed shows 100 and all instruments counted; cancelled shows progress below 100 and the processed ones; a stop before the first instrument reads `progress` unassigned and ends in error with zero counts |
| CollectorView.FailedLabelsNonEmpty | backend/views/data_collector.py:130-132 | no failure label is empty, so each failed instrument is really appended |
| CollectorView.FinalStatusShape | backend/views/data_collector.py:74-166 | after any run the flag is cleared, the total is the number of listed instruments, the start time is set, and the phase is completed, cancelled or error, with completed iff instruments exist and no stop arrived |
| CollectorView.FinalFailedList | backend/views/data_collector.py:109-145 | a run's failure list is the one it found plus the label of each processed instrument that could not be saved |
| CollectorView.FinalStatusFailures | backend/views/data_collector.py:125-132 | every processed instrument that failed is listed, and the list gains no duplicate |
| CollectorView.ProcessStock | backend/views/data_collector.py:114-136 | one pass of the loop: the instrument is crawled and saved, success means a record was created, and the status takes the per-instrument updates |
| CollectorView.CollectLoop | backend/views/data_collector.py:106-145 | the loop processes exactly the instruments before the stop, saves what `SaveEach` says, and counts successes and failures from that run |
| CollectorView.EndRun | backend/views/data_collector.py:147-166 | the end of a run: stop handling after the last check, the end time, the final phase, and the flag cleared |
| CollectorView.BeginRun | backend/views/data_collector.py:78-95 | the start of a run: flag set, initializing announced, default instruments seeded, every stored instrument listed, total recorded, no trading record touched |
| CollectorView.NoStocks | backend/views/data_collector.py:97-99 | with nothing to collect the run ends in error, and the run flag is cleared |
| CollectorView.RunCollection | backend/views/data_collector.py:103-166 | the collecting phase, then the loop with the cut-off fixed, then the end of the run |
| CollectorView.CollectDataBackground | backend/views/data_collector.py:74-166 | the whole run: instrument table seeded, trading table at `SaveEach` of the processed instruments, status at `FinalStatus` |
| TradingService.StockCodeRule | backend/services/trading_service.py:24-36 | a code is valid iff it is six digits, or six digits and a final newline |
| TradingService.StrippedStockCodeRule | backend/services/trading_service.py:119-123 | a stripped code passes iff it is exactly six ASCII digits |
| TradingService.DateFormatRule | backend/services/trading_service.py:39-51 | a date passes iff it has the exact shape `DDDD-DD-DD` (the length bound rules out the newline) |
| TradingService.DateFormatAcceptsNonDates | backend/services/trading_service.py:49-51 | there is no calendar check: `2023-02-30` passes |
| TradingService.IsoDatesPass | backend/services/trading_service.py:49-51 | every date the collector writes passes the date validator |
| TradingService.CreateTradingDataBatch | backend/services/trading_service.py:196-283 | the batch variant succeeds iff the checks pass, reports the first failed check otherwise, never reports a duplicate, and passes the price through unchanged |
| TradingService.StoredExtrasFit | backend/services/trading_service.py:137-145 | optional columns that pass the checks are stored fitting: non-negative price and stripped signals within 50 characters |
| TradingService.CheckedRecordIsWellFormed | backend/services/trading_service.py:119-169 | whatever passes the insert checks is stored well-formed |
| TradingService.CheckedUpdateKeepsWellFormed | backend/services/trading_service.py:403-440 | an update that passes its checks keeps a record well-formed and keeps its key |
| TradingService.CheckedTrendKeepsWellFormed | backend/services/trading_service.py:571-588 | a trend update that passes its checks keeps a record well-formed and keeps its key |
| TradingService.InsertKeepsKeysUnique | backend/services/trading_service.py:148-153 | inserting a record whose key is absent keeps the (code, date) keys unique |
| TradingService.ReplaceKeepsKeysUnique | backend/services/trading_service.py:420-440 | replacing a record by one with the same key keeps the keys unique |
| TradingService.CreateTradingData | backend/services/trading_service.py:80-193 | the checks in source order come first, then the duplicate check on the stripped key, then the insert; a refused call changes nothing; key uniqueness and well-formedness are preserved |
| TradingService.UpdateTradingData | backend/services/trading_service.py:367-456 | the checks come first; a missing id gives `None` and changes nothing; otherwise only that record gets `update_info` with stripped name and signals; invariants are preserved |
| TradingService.UpdateTrendAnalysis | backend/services/trading_service.py:549-593 | both signals are checked; a missing id gives `None`; otherwise only the four trend columns of that record change; invariants are preserved |
| TradingService.StoredDates | backend/services/trading_service.py:317-334 | the dates stored for a code are exactly the trade dates of records with the stripped code, and none for a blank code |
| TradingModel.NewTradingCopiesArguments | backend/models/trading.py:157-170 | the factory copies each argument into its column unchanged and leaves the id unset |
| TradingModel.UpdateInfoKeepsKeyAndAbsentColumns | backend/models/trading.py:172-218 | `update_info` never changes id, code or date, always sets the name, and leaves each column whose argument is `None` unchanged |
| TradingModel.UpdateInfoSetsGivenColumns | backend/models/trading.py:200-218 | every given column ends up holding the given value |
| TradingModel.UpdateInfoIdempotent | backend/models/trading.py:172-218 | applying the same update twice is applying it once |
| TradingModel.TrendAnalysisChangesOnlyTrend | backend/models/trading.py:236-239 | the trend update sets exactly the four trend columns and nothing else |
| TradingModel.TradingDictIsFaithful | backend/models/trading.py:98-119 | `to_dict` has exactly the thirteen columns, and two records with the same dictionary are the same record |
| TradingModel.TradingDictAmounts | backend/models/trading.py:106-112 | the key and amount entries hold the current column values |
| TradingModel.TradingDictTrends | backend/models/trading.py:113-118 | the accumulation and trend entries hold the current column values |
| TradingModel.StockInvestorTrading.constructor | backend/models/trading.py:122-170 | the object holds exactly the record the factory builds |
| TradingModel.StockInvestorTrading.ToDict | backend/models/trading.py:98-119 | the dictionary of the object has the thirteen columns with its id, code and date |
| TradingModel.StockInvestorTrading.UpdateInfo | backend/models/trading.py:172-218 | the object's fields become `ApplyUpdateInfo` of the old ones |
| TradingModel.StockInvestorTrading.UpdateTrendAnalysis | backend/models/trading.py:220-239 | the object's fields become `ApplyTrendAnalysis` of the old ones |
| TradingModel.TradingTable.HasKey | backend/services/trading_service.py:148-152 | the existence query holds iff some stored record has that code and date |
| TradingModel.TradingTable.Add | backend/services/trading_service.py:172-173 | the insert gives the record the next id and adds it, leaving every other record as it was |
| TradingModel.TradingTable.UpdateInfoAt | backend/services/trading_service.py:425-438 | `update_info` on one stored record; every other record is untouched and the table stays valid |
| TradingModel.TradingTable.UpdateTrendAt | backend/services/trading_service.py:581-587 | `update_trend_analysis` on one stored record; every other record is untouched |
| StockService.SameRulesAsTrading | backend/services/stock_service.py:21-62 | the instrument validators are the trading-record validators |
| StockService.CheckedInitDateFits | backend/services/stock_service.py:102-103 | a given `init_date` is checked only when it is truthy, and what passes fits its column |
| StockService.CheckedStockIsWellFormed | backend/services/stock_service.py:90-124 | whatever passes the insert checks is stored well-formed, with stripped code and name and non-negative accum-inits |
| StockService.CheckedStockUpdateKeepsWellFormed | backend/services/stock_service.py:213-241 | an update that passes its checks keeps an instrument well-formed; absent accum-inits keep their columns |
| StockService.CreateStock | backend/services/stock_service.py:65-136 | the checks come first, then the duplicate check on the stripped code, then the insert; a refused call changes nothing; well-formedness is preserved |
| StockService.GetAllStocks | backend/services/stock_service.py:139-149 | every stored instrument is listed exactly once, as stored |
| StockService.GetStockById | backend/services/stock_service.py:152-167 | an id up to 0 gives `None` without a lookup; otherwise the stored instrument, if any |
| StockService.GetStockByCode | backend/services/stock_service.py:170-185 | a blank code finds nothing; otherwise the instrument with the stripped code, if any |
| StockService.UpdateStock | backend/services/stock_service.py:188-247 | the checks come first; a missing id gives `None` and changes nothing; otherwise only that instrument gets `update_info` with the stripped name |
| StockService.UpdateAccumValues | backend/services/stock_service.py:319-354 | negatives are refused before the lookup; a missing id gives `None`; otherwise only the two accum-inits of that instrument change |
| StockService.DeleteStock | backend/services/stock_service.py:250-272 | the result is true iff the id was stored, and exactly that instrument is removed |
| StockModel.NewStockDefaults | backend/models/stock.py:78-105 | the factory copies code and name and defaults both accum-inits to 0 and the init date to `None` |
| StockModel.StockUpdateKeepsKeyAndAbsentColumns | backend/models/stock.py:107-129 | `update_info` keeps id and code, always sets the name, and changes the other columns only when given |
| StockModel.AccumValuesChangeOnlyAccums | backend/models/stock.py:131-144 | `update_accum_values` sets exactly the two accum-init columns |
| StockModel.StockDictIsFaithful | backend/models/stock.py:61-75 | `to_dict` has exactly the six columns and determines the instrument |
| StockModel.StockList.constructor | backend/models/stock.py:78-105 | the object holds exactly the instrument the factory builds |
| StockModel.StockList.ToDict | backend/models/stock.py:61-75 | the dictionary of the object has the six columns with its id and code |
| StockModel.StockList.UpdateInfo | backend/models/stock.py:107-129 | the object's fields become `ApplyStockUpdate` of the old ones |
| StockModel.StockList.UpdateAccumValues | backend/models/stock.py:131-144 | the object's fields become `ApplyAccumValues` of the old ones |
| StockModel.StockTable.HasCode | backend/models/stock.py:26-31 | holds iff some stored instrument has that code |
| StockModel.StockTable.FindByCode | backend/services/stock_service.py:183 | finds a stored instrument with that code iff there is one |
| StockModel.StockTable.Add | backend/services/stock_service.py:126-127 | the insert gives the instrument the next id and keeps codes unique |
| StockModel.StockTable.UpdateInfoAt | backend/services/stock_service.py:235-242 | `update_info` on one stored instrument; every other one is untouched |
| StockModel.StockTable.UpdateAccumAt | backend/services/stock_service.py:347-348 | `update_accum_values` on one stored instrument; every other one is untouched |
| StockModel.StockTable.Remove | backend/services/stock_service.py:265-266 | the instrument under that id is removed and nothing else changes |
| Values.AsPyInt | backend/views/stock.py:182-196 | `isinstance(v, int)` holds exactly for integers and booleans, with `true` and `false` as 1 and 0 |
| StockView.RequiredText | backend/views/stock.py:157-171 | a required text passes iff it is a string that is not blank after strip, and is passed on as given |
| StockView.CreateArgs | backend/views/stock.py:144-196 | the create body passes only when present and non-empty with non-blank code and name; absent accum-inits default to 0; a present non-integer one is refused |
| StockView.GetStock | backend/views/stock.py:40-78 | 400 for an id up to 0, 404 when absent, otherwise 200 with the stored instrument |
| StockView.CreateStockApi | backend/views/stock.py:122-227 | 400 for a bad body; otherwise 201 with the stored instrument iff the service's checks pass and the code is new, else 500; only a 201 changes the table |
| StockView.UpdateArgs | backend/views/stock.py:261-305 | the update body passes only with a non-blank name; an absent accum-init means no change, and a present one must be an integer |
| StockView.UpdateStockApi | backend/views/stock.py:230-337 | 400 for an id up to 0 before the body is read, or for a bad body; then 500, 404 or 200; only a 200 changes the instrument |
| StockView.DeleteStockApi | backend/views/stock.py:340-392 | 400 for an id up to 0, 404 with nothing deleted when absent, otherwise 200 with exactly that instrument removed |
| StockView.AccumArgs | backend/views/stock.py:470-497 | the accum body passes only when present with both accum-inits |
| StockView.UpdateAccumApi | backend/views/stock.py:441-527 | 400 for an id up to 0 or a bad body; 500 for a negative value; 404 when absent; 200 with only the accum-inits changed |
| StockView.SearchStocks | backend/views/stock.py:395-438 | 400 iff both stripped terms are blank, with no results; otherwise 200 with the name matches followed by the code matches whose id is new |
| StockView.NewIdsFilter | backend/views/stock.py:427-429 | the code matches kept are exactly those whose id is not among the name matches |
| StockView.NewIdsKeepsAll | backend/views/stock.py:427-429 | no code match is dropped, and order is kept, when none shares an id with a name match |
| StockView.MergeContents | backend/views/stock.py:422-429 | name matches come first in order; every entry is a name or code match; a code match is missing only when a name match has its id; with no shared id the result is the concatenation |
| StockView.MergeDistinct | backend/views/stock.py:422-429 | when neither search repeats an id, the result repeats none |
| StockListCollector.RowFilterRule | backend/services/stock_list_collector.py:181-197 | a table row gives an entry iff it has at least two cells, a non-blank name and a code of six digits after strip; that entry is stripped and importable |
| StockListCollector.PageEntriesFromRows | backend/services/stock_list_collector.py:179-197 | a page gives at most one entry per row, each importable and taken from a row of that page |
| StockListCollector.ScanListPage | backend/services/stock_list_collector.py:179-197 | the row loop of one page builds exactly the page's entries in row order |
| StockListCollector.ReadListPage | backend/services/stock_list_collector.py:166-197 | a failed request, a status from 400 to 599 or a missing table gives no page; otherwise the page's entries |
| StockListCollector.CollectKospiStocksFromWeb | backend/services/stock_list_collector.py:139-215 | the page loop returns exactly `WebList(site)` |
| StockListCollector.PagesRead | backend/services/stock_list_collector.py:160-201 | the loop reads pages until the first that breaks it or yields nothing, and at most 50 |
| StockListCollector.WebListIsPagesInOrder | backend/services/stock_list_collector.py:199-203 | the web list is the concatenation of the pages read, in page order |
| StockListCollector.OnlyFirstPagesRead | backend/services/stock_list_collector.py:160-162 | pages after the fiftieth never matter |
| StockListCollector.WebListImportable | backend/services/stock_list_collector.py:181-203 | every entry of the web list is importable (stripped six-digit code, non-blank stripped name) |
| StockListCollector.KospiKeepsRepeats | backend/services/stock_list_collector.py:19-77 | the predefined KOSPI list has 57 entries and keeps its repeats: 000660 at positions 1 and 52, 000270 at 17 and 55 |
| StockListCollector.KosdaqKeepsRepeats | backend/services/stock_list_collector.py:80-136 | the predefined KOSDAQ list has 55 entries, with 000270 at positions 17 and 53 |
| StockListCollector.KospiStocks | backend/services/stock_list_collector.py:222-236 | `collect_kospi_stocks` returns the 57 predefined entries with repeats kept, each importable |
| StockListCollector.KosdaqStocks | backend/services/stock_list_collector.py:268-282 | `collect_kosdaq_stocks` returns the 55 predefined entries with repeats kept, each importable |
| StockListCollector.KospiAllStocks | backend/services/stock_list_collector.py:243-261 | the web list is used iff it has more than 100 entries, otherwise the predefined list; at least 57 entries either way |
| StockListCollector.CollectKospiAllStocks | backend/services/stock_list_collector.py:243-265 | scrape, then choose: at least 57 entries, all importable |
| StockListCollector.CollectAllStocks | backend/services/stock_list_collector.py:289-310 | the result holds both predefined lists, and its total is their combined length, 112 |

## Left out

- **Network, HTML and encodings are not modelled.** `requests.get`, BeautifulSoup and `euc-kr`
  decoding are replaced by the sequence of responses, with each page already split into rows of
  cell texts.
- **`get_text(strip=True)` is approximated by `strip()` of the cell text.** The scraper's
  `get_text(strip=True)` also strips each inner text node.
- **Sleeps and random delays are not modelled.** `time.sleep` and `random.uniform` have no
  observable effect.
- **Threads and races are not modelled.** The daemon thread of `start_collection` is a sequential
  method. A stop request happens at one of the loop's checks (`stopAt`), so races between the
  handlers and the worker on the shared dictionary are not modelled.
- **Wall-clock time is a parameter.** `datetime.today()`, the `years * 365` subtraction and
  `datetime.now()` are replaced by the cut-off and the two stamps.
- **The status handler's elapsed time is not modelled.**
- **SQLAlchemy is replaced by in-memory tables.** Sessions, commit and rollback, and the
  database's own constraint errors are not modelled. Code uniqueness is kept as part of
  `StockTable.Valid()`.
- **`backend/utils/transaction.py` is not part of this model.**
- StockService.GetAllStocks: lists instruments in id order, while the source orders them by
  stock code. The contract states that every stored instrument is listed exactly once, but not
  the order.
- CollectorParsing.ParseNumberOfShown: does not model CPython's limit on integer string
  conversion. Since Python 3.11, `int()` raises `ValueError` for decimal text of more than 4300
  digits, so the round trip holds in the source only below that length.
- **The SQL `LIKE` searches are parameters.** `search_stocks_by_name` and
  `search_stocks_by_code` are given to `StockView.SearchStocks` as functions. Their matching is
  not modelled.
- CollectorView.Percent: uses the exact integer quotient `i * 100 / n`. The source computes
  `int(i / n * 100)` in floating point, which can be one lower (29 of 100 gives 28).
- CollectorView.EndingCounts: the error message for a stop before the first instrument is the
  fixed text `UNBOUND_PROGRESS_MESSAGE`. The exact text of Python's `UnboundLocalError` is not
  modelled.
- **Branches that cannot be reached are not modelled.**
  - `initialize_stock_list` catches every exception and always returns True, so the view's
    "initialization failed" branch (`backend/views/data_collector.py:88-90`) is never taken.
  - `collect_and_save_trading_data` catches every exception, so the loop's `except` branches
    (`backend/views/data_collector.py:138-145`, `backend/services/data_collector.py:362-366`)
    are never taken.
  - The `except` branches of the list scraper's functions are likewise never taken.
  - The service layer re-raises validation errors as plain `Exception`, so the handlers'
    `except ValueError` answers (400) are never reached. Those requests answer 500, as
    modelled.
- **Only JSON objects and missing bodies are modelled as request bodies.** Malformed JSON and
  non-object bodies are not.
- **Response bodies and messages are not modelled.** The handlers' JSON bodies and their error
  texts are left out; the status codes and the stored state are modelled.
- **Trend scores are opaque values.** They are floats in the source, and no arithmetic is done
  on them.
- **Python's list copies are values.** `.copy()` of the predefined lists has no effect in a model
  of values.
- **Unicode is reduced to ASCII digits.** `isdigit` and `int()` accept ASCII digits only;
  Python also accepts other Unicode decimal digits.
- **Years below 1000 are not given glibc's formatting.** `strftime("%Y")` is four-digit zero
  padded; glibc prints years below 1000 without padding.
- **Several features do not exist in the code and are not modelled:** cumulative-sum
  recomputation, batching, memory-pressure handling, retry and back-off.
- **Request plumbing and logging modules are not part of this model.** These are the
  history, sample, user and trading views and services, the scripts and the application set-up.
  Logging calls are dropped throughout.

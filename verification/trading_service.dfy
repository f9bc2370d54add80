/**
 * `TradingService`: the validators, the fixed-order checks that guard every write, the insert
 * with its duplicate check on (stock code, trade date), the unsaved batch variant and the two
 * updates by id. Each write keeps two facts about the table: no two stored records share a
 * (code, date) key, and every stored record fits the columns it is stored in.
 */
module TradingService {

  import opened Wrappers
  import opened Values
  import opened PyText
  import opened Patterns
  import opened Dates
  import opened TradingModel

  const MAX_STOCK_CODE_LENGTH := 20
  const MAX_STOCK_NAME_LENGTH := 100
  const MAX_TRADE_DATE_LENGTH := 10
  const MAX_TREND_SIGNAL_LENGTH := 50

  /** `validate_stock_code`. */
  predicate ValidateStockCode(code: string) {
    |code| <= MAX_STOCK_CODE_LENGTH && MatchesSixDigits(code)
  }

  /** `validate_date_format`: the shape only, no calendar check. */
  predicate ValidateDateFormat(s: string) {
    |s| <= MAX_TRADE_DATE_LENGTH && MatchesDateShape(s)
  }

  /** `validate_stock_name`: measured after stripping. */
  predicate ValidateStockName(name: string) {
    0 < |Strip(name)| <= MAX_STOCK_NAME_LENGTH
  }

  /** `validate_trend_signal`: measured after stripping. */
  predicate ValidateTrendSignal(signal: string) {
    |Strip(signal)| <= MAX_TREND_SIGNAL_LENGTH
  }

  /** A code is valid exactly when it is six digits, or six digits and a final newline. */
  lemma StockCodeRule(code: string)
    ensures ValidateStockCode(code) <==>
      (|code| == 6 && AllDigits(code)) || (|code| == 7 && AllDigits(code[..6]) && code[6] == '\n')
  {
    MatchesSixDigitsExactly(code);
  }

  /** The service validates the stripped code, and a stripped code is valid iff it is six digits. */
  lemma StrippedStockCodeRule(code: string)
    ensures ValidateStockCode(Strip(code)) <==> |Strip(code)| == 6 && AllDigits(Strip(code))
  {
    StripShape(code);
    MatchesSixDigitsNoTrailingSpace(Strip(code));
  }

  /** The length bound rules out the trailing newline, so a valid date is exactly `DDDD-DD-DD`. */
  lemma DateFormatRule(s: string)
    ensures ValidateDateFormat(s) <==> IsDateShape(s)
  {
    if |s| == 10 {
      assert s[..10] == s;
    }
  }

  /** No calendar check: a day that does not exist passes. */
  lemma DateFormatAcceptsNonDates()
    ensures ValidateDateFormat("2023-02-30")
    ensures !ValidDate(Date(2023, 2, 30))
  {
    DateFormatRule("2023-02-30");
  }

  /** Every date the collector writes passes the validator. */
  lemma IsoDatesPass(d: Date)
    requires ValidDate(d)
    ensures ValidateDateFormat(FormatIso(d))
  {
    DateFormatRule(FormatIso(d));
  }

  /** Why a write was refused; each one reaches the caller as a generic `Exception`. */
  datatype TradingError =
    | CodeRequired | CodeInvalid | NameRequired | NameInvalid | DateRequired | DateInvalid
    | NegativeClosePrice | InstitutionSignalTooLong | ForeignerSignalTooLong | Duplicate

  /** `sig.strip() if sig else None`. */
  function StoredSignal(s: Option<string>): Option<string> {
    if Given(s) then Some(Strip(s.value)) else None
  }

  /** The optional columns as the service passes them on: signals stripped, the rest unchanged. */
  function StoredExtras(e: TradingExtras): TradingExtras {
    e.(institutionTrendSignal := StoredSignal(e.institutionTrendSignal),
       foreignerTrendSignal := StoredSignal(e.foreignerTrendSignal))
  }

  /** The checks on the optional columns, in source order. */
  function CheckOptional(e: TradingExtras): Option<TradingError> {
    if e.closePrice.Some? && e.closePrice.value < 0 then Some(NegativeClosePrice)
    else if Given(e.institutionTrendSignal) && !ValidateTrendSignal(e.institutionTrendSignal.value) then
      Some(InstitutionSignalTooLong)
    else if Given(e.foreignerTrendSignal) && !ValidateTrendSignal(e.foreignerTrendSignal.value) then
      Some(ForeignerSignalTooLong)
    else None
  }

  /** The checks in front of an insert, in source order; the first failure is reported. */
  function CheckNewRecord(code: string, name: string, date: string, e: TradingExtras): Option<TradingError> {
    if Strip(code) == [] then Some(CodeRequired)
    else if !ValidateStockCode(Strip(code)) then Some(CodeInvalid)
    else if Strip(name) == [] then Some(NameRequired)
    else if !ValidateStockName(name) then Some(NameInvalid)
    else if Strip(date) == [] then Some(DateRequired)
    else if !ValidateDateFormat(Strip(date)) then Some(DateInvalid)
    else CheckOptional(e)
  }

  /** The checks in front of `update_info`, in source order. */
  function CheckUpdate(name: string, e: TradingExtras): Option<TradingError> {
    if Strip(name) == [] then Some(NameRequired)
    else if !ValidateStockName(name) then Some(NameInvalid)
    else CheckOptional(e)
  }

  /** The checks in front of `update_trend_analysis`. */
  function CheckTrend(instSignal: string, frgSignal: string): Option<TradingError> {
    if !ValidateTrendSignal(instSignal) then Some(InstitutionSignalTooLong)
    else if !ValidateTrendSignal(frgSignal) then Some(ForeignerSignalTooLong)
    else None
  }

  /** A stored text signal: stripped and within the column width. */
  predicate SignalFits(s: Option<string>) {
    s.Some? ==> |s.value| <= MAX_TREND_SIGNAL_LENGTH && Strip(s.value) == s.value
  }

  /**
   * What every record written by the service looks like: a six-digit code, a `DDDD-DD-DD`
   * date, a stripped non-blank name within 100 characters, a non-negative close price and
   * stripped signals within 50 characters.
   */
  predicate WellFormed(f: TradingFields) {
    && |f.stockCode| == 6 && AllDigits(f.stockCode)
    && IsDateShape(f.tradeDate)
    && 0 < |f.stockName| <= MAX_STOCK_NAME_LENGTH && Strip(f.stockName) == f.stockName
    && (f.closePrice.Some? ==> f.closePrice.value >= 0)
    && SignalFits(f.institutionTrendSignal) && SignalFits(f.foreignerTrendSignal)
  }

  predicate AllWellFormed(s: map<int, TradingFields>) {
    forall id | id in s :: WellFormed(s[id])
  }

  /** No two stored records share a (stock code, trade date) key. */
  predicate KeysUnique(s: map<int, TradingFields>) {
    forall a, b | a in s && b in s && s[a].stockCode == s[b].stockCode && s[a].tradeDate == s[b].tradeDate :: a == b
  }

  /**
   * `create_trading_data_batch`: the same checks as the insert, then the record built from the
   * stripped arguments; no duplicate check and nothing stored.
   */
  function CreateTradingDataBatch(code: string, name: string, date: string, e: TradingExtras)
    : (r: Result<TradingFields, TradingError>)
    ensures r.Ok? <==> CheckNewRecord(code, name, date, e).None?
    ensures r.Err? ==> r.error != Duplicate && Some(r.error) == CheckNewRecord(code, name, date, e)
    ensures r.Ok? ==> r.value.id == None && ExtrasOf(r.value).closePrice == e.closePrice
  {
    match CheckNewRecord(code, name, date, e)
    case Some(err) => Err(err)
    case None => Ok(NewTrading(Strip(code), Strip(name), Strip(date), StoredExtras(e)))
  }

  /** The optional checks pass exactly when the stored optional columns fit. */
  lemma StoredExtrasFit(e: TradingExtras)
    requires CheckOptional(e).None?
    ensures var s := StoredExtras(e);
      (s.closePrice.Some? ==> s.closePrice.value >= 0)
      && SignalFits(s.institutionTrendSignal) && SignalFits(s.foreignerTrendSignal)
  {
    if Given(e.institutionTrendSignal) {
      StripIdempotent(e.institutionTrendSignal.value);
    }
    if Given(e.foreignerTrendSignal) {
      StripIdempotent(e.foreignerTrendSignal.value);
    }
  }

  /** Whatever passes the checks is stored well-formed. */
  lemma CheckedRecordIsWellFormed(code: string, name: string, date: string, e: TradingExtras)
    requires CheckNewRecord(code, name, date, e).None?
    ensures WellFormed(CreateTradingDataBatch(code, name, date, e).value)
  {
    StrippedStockCodeRule(code);
    DateFormatRule(Strip(date));
    StripIdempotent(name);
    StoredExtrasFit(e);
  }

  /** An update that passes its checks keeps a record well-formed and keeps its key. */
  lemma CheckedUpdateKeepsWellFormed(f: TradingFields, name: string, e: TradingExtras)
    requires WellFormed(f) && CheckUpdate(name, e).None?
    ensures var g := ApplyUpdateInfo(f, Strip(name), StoredExtras(e));
      WellFormed(g) && g.stockCode == f.stockCode && g.tradeDate == f.tradeDate
  {
    StripIdempotent(name);
    StoredExtrasFit(e);
  }

  /** A trend update that passes its checks keeps a record well-formed and keeps its key. */
  lemma CheckedTrendKeepsWellFormed(f: TradingFields, instSignal: string, instScore: Score,
                                    frgSignal: string, frgScore: Score)
    requires WellFormed(f) && CheckTrend(instSignal, frgSignal).None?
    ensures var g := ApplyTrendAnalysis(f, Strip(instSignal), instScore, Strip(frgSignal), frgScore);
      WellFormed(g) && g.stockCode == f.stockCode && g.tradeDate == f.tradeDate
  {
    StripIdempotent(instSignal);
    StripIdempotent(frgSignal);
  }

  /** Inserting a record under a fresh id and a key not yet present keeps the keys unique. */
  lemma InsertKeepsKeysUnique(s: map<int, TradingFields>, id: int, f: TradingFields)
    requires KeysUnique(s) && id !in s && !KeyIn(s, f.stockCode, f.tradeDate)
    ensures KeysUnique(s[id := f])
  {
  }

  /** Replacing a record by one with the same key keeps the keys unique. */
  lemma ReplaceKeepsKeysUnique(s: map<int, TradingFields>, id: int, g: TradingFields)
    requires KeysUnique(s) && id in s
    requires g.stockCode == s[id].stockCode && g.tradeDate == s[id].tradeDate
    ensures KeysUnique(s[id := g])
  {
  }

  /**
   * `create_trading_data`: the checks in source order, then the duplicate check on the
   * stripped code and date, then the insert of the record the batch variant builds.
   * A refused call leaves the table as it was.
   */
  method CreateTradingData(db: TradingTable, code: string, name: string, date: string, e: TradingExtras)
    returns (r: Result<StockInvestorTrading, TradingError>)
    requires db.Valid()
    modifies db
    ensures db.Valid()
    ensures CheckNewRecord(code, name, date, e).Some? ==> r == Err(CheckNewRecord(code, name, date, e).value)
    ensures CheckNewRecord(code, name, date, e).None? && old(db.HasKey(Strip(code), Strip(date))) ==> r == Err(Duplicate)
    ensures CheckNewRecord(code, name, date, e).None? && !old(db.HasKey(Strip(code), Strip(date))) ==> r.Ok?
    ensures r.Err? ==> db.rows == old(db.rows) && db.nextId == old(db.nextId) && db.Snapshot() == old(db.Snapshot())
    ensures r.Ok? ==> (fresh(r.value) && db.nextId == old(db.nextId) + 1
      && r.value.Fields() == CreateTradingDataBatch(code, name, date, e).value.(id := Some(old(db.nextId)))
      && db.Snapshot() == old(db.Snapshot())[old(db.nextId) := r.value.Fields()])
    ensures KeysUnique(old(db.Snapshot())) ==> KeysUnique(db.Snapshot())
    ensures AllWellFormed(old(db.Snapshot())) ==> AllWellFormed(db.Snapshot())
  {
    var err := CheckNewRecord(code, name, date, e);
    if err.Some? {
      return Err(err.value);
    }
    if db.HasKey(Strip(code), Strip(date)) {
      return Err(Duplicate);
    }
    ghost var before := db.Snapshot();
    var rec := new StockInvestorTrading(Strip(code), Strip(name), Strip(date), StoredExtras(e));
    db.Add(rec);
    r := Ok(rec);
    CheckedRecordIsWellFormed(code, name, date, e);
    assert old(db.nextId) !in before;
    if KeysUnique(before) {
      InsertKeepsKeysUnique(before, old(db.nextId), rec.Fields());
    }
  }

  /**
   * `update_trading_data`: the checks, then `query.get(id)`; a missing id gives `None` and
   * changes nothing, a present one gets `update_info` with the stripped name and signals.
   */
  method UpdateTradingData(db: TradingTable, id: int, name: string, e: TradingExtras)
    returns (r: Result<Option<StockInvestorTrading>, TradingError>)
    requires db.Valid()
    modifies db.Records()
    ensures db.Valid() && db.rows == old(db.rows)
    ensures CheckUpdate(name, e).Some? ==> r == Err(CheckUpdate(name, e).value) && db.Snapshot() == old(db.Snapshot())
    ensures CheckUpdate(name, e).None? && id !in db.rows ==> r == Ok(None) && db.Snapshot() == old(db.Snapshot())
    ensures CheckUpdate(name, e).None? && id in db.rows ==> (r == Ok(Some(db.rows[id]))
      && db.Snapshot() == old(db.Snapshot())[id := ApplyUpdateInfo(old(db.Snapshot())[id], Strip(name), StoredExtras(e))])
    ensures KeysUnique(old(db.Snapshot())) ==> KeysUnique(db.Snapshot())
    ensures AllWellFormed(old(db.Snapshot())) ==> AllWellFormed(db.Snapshot())
  {
    var err := CheckUpdate(name, e);
    if err.Some? {
      return Err(err.value);
    }
    if id !in db.rows {
      return Ok(None);
    }
    ghost var before := db.Snapshot();
    db.UpdateInfoAt(id, Strip(name), StoredExtras(e));
    r := Ok(Some(db.rows[id]));
    if KeysUnique(before) {
      ReplaceKeepsKeysUnique(before, id, db.Snapshot()[id]);
    }
    if AllWellFormed(before) {
      CheckedUpdateKeepsWellFormed(before[id], name, e);
    }
  }

  /**
   * `update_trend_analysis`: both signals checked, then `query.get(id)`; a present record gets
   * the four trend columns, with the signals stripped (a blank signal is stored as "").
   */
  method UpdateTrendAnalysis(db: TradingTable, id: int, instSignal: string, instScore: Score,
                             frgSignal: string, frgScore: Score)
    returns (r: Result<Option<StockInvestorTrading>, TradingError>)
    requires db.Valid()
    modifies db.Records()
    ensures db.Valid() && db.rows == old(db.rows)
    ensures CheckTrend(instSignal, frgSignal).Some? ==> (r == Err(CheckTrend(instSignal, frgSignal).value)
      && db.Snapshot() == old(db.Snapshot()))
    ensures CheckTrend(instSignal, frgSignal).None? && id !in db.rows ==> r == Ok(None) && db.Snapshot() == old(db.Snapshot())
    ensures CheckTrend(instSignal, frgSignal).None? && id in db.rows ==> (r == Ok(Some(db.rows[id]))
      && db.Snapshot() == old(db.Snapshot())[id := ApplyTrendAnalysis(old(db.Snapshot())[id],
                                                 Strip(instSignal), instScore, Strip(frgSignal), frgScore)])
    ensures KeysUnique(old(db.Snapshot())) ==> KeysUnique(db.Snapshot())
    ensures AllWellFormed(old(db.Snapshot())) ==> AllWellFormed(db.Snapshot())
  {
    var err := CheckTrend(instSignal, frgSignal);
    if err.Some? {
      return Err(err.value);
    }
    if id !in db.rows {
      return Ok(None);
    }
    ghost var before := db.Snapshot();
    db.UpdateTrendAt(id, Strip(instSignal), instScore, Strip(frgSignal), frgScore);
    r := Ok(Some(db.rows[id]));
    if KeysUnique(before) {
      ReplaceKeepsKeysUnique(before, id, db.Snapshot()[id]);
    }
    if AllWellFormed(before) {
      CheckedTrendKeepsWellFormed(before[id], instSignal, instScore, frgSignal, frgScore);
    }
  }

  /**
   * `get_trading_data_by_stock_code` as the collector uses it: the set of trade dates stored
   * for the stripped code, empty for a blank code.
   */
  function StoredDates(db: TradingTable, code: string): (ds: set<string>)
    reads db, db.Records()
    ensures forall d :: d in ds <==> Strip(code) != [] && db.HasKey(Strip(code), d)
  {
    if Strip(code) == [] then {} else db.DatesOf(Strip(code))
  }
}

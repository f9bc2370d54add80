/**
 * `StockService`: its own copies of the validators (with its own length constants), the
 * fixed-order checks, the insert with its duplicate check on the stock code, the lookups, the
 * two updates by id and the delete. The duplicate check is what keeps the database's `unique`
 * constraint on `stock_code` from ever firing on this path.
 */
module StockService {

  import opened Wrappers
  import opened PyText
  import opened Patterns
  import opened StockModel
  import TradingService

  const MAX_STOCK_CODE_LENGTH := 20
  const MAX_STOCK_NAME_LENGTH := 100
  const MAX_INIT_DATE_LENGTH := 10

  /** `validate_stock_code`. */
  predicate ValidateStockCode(code: string) {
    |code| <= MAX_STOCK_CODE_LENGTH && MatchesSixDigits(code)
  }

  /** `validate_date_format`. */
  predicate ValidateDateFormat(s: string) {
    |s| <= MAX_INIT_DATE_LENGTH && MatchesDateShape(s)
  }

  /** `validate_stock_name`. */
  predicate ValidateStockName(name: string) {
    0 < |Strip(name)| <= MAX_STOCK_NAME_LENGTH
  }

  /** The instrument validators follow the same rules as the trading-record ones. */
  lemma SameRulesAsTrading(s: string)
    ensures ValidateStockCode(s) == TradingService.ValidateStockCode(s)
    ensures ValidateDateFormat(s) == TradingService.ValidateDateFormat(s)
    ensures ValidateStockName(s) == TradingService.ValidateStockName(s)
  {
  }

  /** Why a write was refused; each one reaches the caller as a generic `Exception`. */
  datatype StockError =
    | CodeRequired | CodeInvalid | NameRequired | NameInvalid | InitDateInvalid
    | NegativeInstitutionAccum | NegativeForeignerAccum | Duplicate

  /** The checks in front of an insert, in source order. */
  function CheckNewStock(code: string, name: string, initDate: Option<string>, inst: int, frg: int)
    : Option<StockError>
  {
    if Strip(code) == [] then Some(CodeRequired)
    else if !ValidateStockCode(Strip(code)) then Some(CodeInvalid)
    else if Strip(name) == [] then Some(NameRequired)
    else if !ValidateStockName(name) then Some(NameInvalid)
    else if Given(initDate) && !ValidateDateFormat(initDate.value) then Some(InitDateInvalid)
    else if inst < 0 then Some(NegativeInstitutionAccum)
    else if frg < 0 then Some(NegativeForeignerAccum)
    else None
  }

  /** The checks in front of `update_info`, in source order; absent accum-inits pass. */
  function CheckStockUpdate(name: string, initDate: Option<string>, inst: Option<int>, frg: Option<int>)
    : Option<StockError>
  {
    if Strip(name) == [] then Some(NameRequired)
    else if !ValidateStockName(name) then Some(NameInvalid)
    else if Given(initDate) && !ValidateDateFormat(initDate.value) then Some(InitDateInvalid)
    else if inst.Some? && inst.value < 0 then Some(NegativeInstitutionAccum)
    else if frg.Some? && frg.value < 0 then Some(NegativeForeignerAccum)
    else None
  }

  /** The checks in front of `update_accum_values`. */
  function CheckAccum(inst: int, frg: int): Option<StockError> {
    if inst < 0 then Some(NegativeInstitutionAccum)
    else if frg < 0 then Some(NegativeForeignerAccum)
    else None
  }

  /** A stored `init_date`: absent, empty (an empty argument passes unchecked) or `DDDD-DD-DD`. */
  predicate InitDateFits(d: Option<string>) {
    d.Some? ==> d.value == [] || IsDateShape(d.value)
  }

  /**
   * What every instrument written by the service looks like: a six-digit code, a stripped
   * non-blank name within 100 characters, a fitting `init_date` and non-negative accum-inits.
   */
  predicate StockWellFormed(f: StockFields) {
    && |f.stockCode| == 6 && AllDigits(f.stockCode)
    && 0 < |f.stockName| <= MAX_STOCK_NAME_LENGTH && Strip(f.stockName) == f.stockName
    && InitDateFits(f.initDate)
    && f.institutionAccumInit >= 0 && f.foreignerAccumInit >= 0
  }

  predicate AllStocksWellFormed(s: map<int, StockFields>) {
    forall id | id in s :: StockWellFormed(s[id])
  }

  /** A given `init_date` that passes the check fits its column. */
  lemma CheckedInitDateFits(initDate: Option<string>)
    requires !(Given(initDate) && !ValidateDateFormat(initDate.value))
    ensures InitDateFits(initDate)
  {
    if Given(initDate) {
      var s := initDate.value;
      assert |s| == 10 by {
        assert |s| >= 10;
      }
      assert s[..10] == s;
    }
  }

  /** The instrument `create_stock` stores: stripped code and name, the rest as given. */
  function NewStockOf(code: string, name: string, initDate: Option<string>, inst: int, frg: int): StockFields {
    NewStock(Strip(code), Strip(name), initDate, inst, frg)
  }

  /** Whatever passes the insert checks is stored well-formed. */
  lemma CheckedStockIsWellFormed(code: string, name: string, initDate: Option<string>, inst: int, frg: int)
    requires CheckNewStock(code, name, initDate, inst, frg).None?
    ensures StockWellFormed(NewStockOf(code, name, initDate, inst, frg))
  {
    TradingService.StrippedStockCodeRule(code);
    StripIdempotent(name);
    CheckedInitDateFits(initDate);
  }

  /** An update that passes its checks keeps an instrument well-formed. */
  lemma CheckedStockUpdateKeepsWellFormed(f: StockFields, name: string, initDate: Option<string>,
                                          inst: Option<int>, frg: Option<int>)
    requires StockWellFormed(f) && CheckStockUpdate(name, initDate, inst, frg).None?
    ensures StockWellFormed(ApplyStockUpdate(f, Strip(name), initDate, inst, frg))
  {
    StripIdempotent(name);
    CheckedInitDateFits(initDate);
  }

  /**
   * `create_stock`: the checks in source order, then the duplicate check on the stripped code,
   * then the insert. A refused call leaves the table as it was.
   */
  method CreateStock(db: StockTable, code: string, name: string, initDate: Option<string>, inst: int, frg: int)
    returns (r: Result<StockList, StockError>)
    requires db.Valid()
    modifies db
    ensures db.Valid()
    ensures CheckNewStock(code, name, initDate, inst, frg).Some? ==> r == Err(CheckNewStock(code, name, initDate, inst, frg).value)
    ensures CheckNewStock(code, name, initDate, inst, frg).None? && old(db.HasCode(Strip(code))) ==> r == Err(Duplicate)
    ensures CheckNewStock(code, name, initDate, inst, frg).None? && !old(db.HasCode(Strip(code))) ==> r.Ok?
    ensures r.Err? ==> db.rows == old(db.rows) && db.nextId == old(db.nextId) && db.Snapshot() == old(db.Snapshot())
    ensures r.Ok? ==> (fresh(r.value) && db.nextId == old(db.nextId) + 1
      && r.value.Fields() == NewStockOf(code, name, initDate, inst, frg).(id := Some(old(db.nextId)))
      && db.Snapshot() == old(db.Snapshot())[old(db.nextId) := r.value.Fields()])
    ensures AllStocksWellFormed(old(db.Snapshot())) ==> AllStocksWellFormed(db.Snapshot())
  {
    var err := CheckNewStock(code, name, initDate, inst, frg);
    if err.Some? {
      return Err(err.value);
    }
    if db.HasCode(Strip(code)) {
      return Err(Duplicate);
    }
    var rec := new StockList(Strip(code), Strip(name), initDate, inst, frg);
    db.Add(rec);
    r := Ok(rec);
    CheckedStockIsWellFormed(code, name, initDate, inst, frg);
  }

  /**
   * `get_all_stocks`: every stored instrument exactly once. The listing here is in id order;
   * the source orders it by stock code.
   */
  method GetAllStocks(db: StockTable) returns (stocks: seq<StockFields>)
    requires db.Valid()
    ensures forall k | 0 <= k < |stocks| ::
      stocks[k].id.Some? && stocks[k].id.value in db.Snapshot() && db.Snapshot()[stocks[k].id.value] == stocks[k]
    ensures forall id | id in db.rows :: exists k | 0 <= k < |stocks| :: stocks[k].id == Some(id)
    ensures forall a, b | 0 <= a < b < |stocks| :: stocks[a].id.value < stocks[b].id.value
  {
    ghost var snap := db.Snapshot();
    assert forall id | id in snap :: snap[id].id == Some(id);
    stocks := [];
    for id := 1 to db.nextId
      invariant ListedBelow(snap, stocks, id)
    {
      ListedStep(snap, stocks, id);
      if id in db.rows {
        stocks := stocks + [db.rows[id].Fields()];
      }
    }
  }

  /**
   * The loop invariant of `GetAllStocks`: `stocks` lists, in increasing id order, exactly the
   * stored instruments whose id is below `bound`.
   */
  ghost predicate ListedBelow(snap: map<int, StockFields>, stocks: seq<StockFields>, bound: int) {
    && (forall k | 0 <= k < |stocks| ::
          stocks[k].id.Some? && stocks[k].id.value < bound && stocks[k].id.value in snap
          && snap[stocks[k].id.value] == stocks[k])
    && (forall j | j in snap && j < bound :: exists k | 0 <= k < |stocks| :: stocks[k].id == Some(j))
    && (forall a, b | 0 <= a < b < |stocks| :: stocks[a].id.value < stocks[b].id.value)
  }

  lemma ListedStep(snap: map<int, StockFields>, stocks: seq<StockFields>, id: int)
    requires forall j | j in snap :: snap[j].id == Some(j)
    requires ListedBelow(snap, stocks, id)
    ensures ListedBelow(snap, if id in snap then stocks + [snap[id]] else stocks, id + 1)
  {
    if id in snap {
      var next := stocks + [snap[id]];
      assert next[|stocks|].id == Some(id);
      assert forall k | 0 <= k < |stocks| :: next[k] == stocks[k];
    }
  }

  /** `get_stock_by_id`: ids up to 0 are refused without a lookup. */
  function GetStockById(db: StockTable, id: int): (r: Option<StockList>)
    reads db
    ensures r.Some? <==> id > 0 && id in db.rows
    ensures r.Some? ==> r.value == db.rows[id]
  {
    if id <= 0 || id !in db.rows then None else Some(db.rows[id])
  }

  /** `get_stock_by_code`: a blank code finds nothing, otherwise the stripped code is looked up. */
  method GetStockByCode(db: StockTable, code: string) returns (r: Option<StockList>)
    requires db.Valid()
    ensures r.Some? <==> Strip(code) != [] && db.HasCode(Strip(code))
    ensures r.Some? ==> r.value in db.Records() && r.value.stockCode == Strip(code)
  {
    if Strip(code) == [] {
      return None;
    }
    r := db.FindByCode(Strip(code));
  }

  /**
   * `update_stock`: the checks, then `query.get(id)`; a missing id gives `None` and changes
   * nothing, a present one gets `update_info` with the stripped name.
   */
  method UpdateStock(db: StockTable, id: int, name: string, initDate: Option<string>,
                     inst: Option<int>, frg: Option<int>)
    returns (r: Result<Option<StockList>, StockError>)
    requires db.Valid()
    modifies db.Records()
    ensures db.Valid() && db.rows == old(db.rows)
    ensures CheckStockUpdate(name, initDate, inst, frg).Some? ==>
      r == Err(CheckStockUpdate(name, initDate, inst, frg).value) && db.Snapshot() == old(db.Snapshot())
    ensures CheckStockUpdate(name, initDate, inst, frg).None? && id !in db.rows ==>
      r == Ok(None) && db.Snapshot() == old(db.Snapshot())
    ensures CheckStockUpdate(name, initDate, inst, frg).None? && id in db.rows ==>
      r == Ok(Some(db.rows[id]))
      && db.Snapshot() == old(db.Snapshot())[id := ApplyStockUpdate(old(db.Snapshot())[id], Strip(name), initDate, inst, frg)]
    ensures AllStocksWellFormed(old(db.Snapshot())) ==> AllStocksWellFormed(db.Snapshot())
  {
    var err := CheckStockUpdate(name, initDate, inst, frg);
    if err.Some? {
      return Err(err.value);
    }
    if id !in db.rows {
      return Ok(None);
    }
    ghost var before := db.Snapshot();
    db.UpdateInfoAt(id, Strip(name), initDate, inst, frg);
    r := Ok(Some(db.rows[id]));
    if AllStocksWellFormed(before) {
      CheckedStockUpdateKeepsWellFormed(before[id], name, initDate, inst, frg);
    }
  }

  /** `update_accum_values`: negatives are refused before the lookup; a missing id gives `None`. */
  method UpdateAccumValues(db: StockTable, id: int, inst: int, frg: int)
    returns (r: Result<Option<StockList>, StockError>)
    requires db.Valid()
    modifies db.Records()
    ensures db.Valid() && db.rows == old(db.rows)
    ensures CheckAccum(inst, frg).Some? ==> r == Err(CheckAccum(inst, frg).value) && db.Snapshot() == old(db.Snapshot())
    ensures CheckAccum(inst, frg).None? && id !in db.rows ==> r == Ok(None) && db.Snapshot() == old(db.Snapshot())
    ensures CheckAccum(inst, frg).None? && id in db.rows ==>
      r == Ok(Some(db.rows[id]))
      && db.Snapshot() == old(db.Snapshot())[id := ApplyAccumValues(old(db.Snapshot())[id], inst, frg)]
    ensures AllStocksWellFormed(old(db.Snapshot())) ==> AllStocksWellFormed(db.Snapshot())
  {
    var err := CheckAccum(inst, frg);
    if err.Some? {
      return Err(err.value);
    }
    if id !in db.rows {
      return Ok(None);
    }
    db.UpdateAccumAt(id, inst, frg);
    r := Ok(Some(db.rows[id]));
  }

  /** `delete_stock`: `False` and no change when the id is absent. */
  method DeleteStock(db: StockTable, id: int) returns (deleted: bool)
    requires db.Valid()
    modifies db
    ensures db.Valid()
    ensures deleted <==> id in old(db.rows)
    ensures db.Snapshot() == old(db.Snapshot()) - {id}
  {
    if id !in db.rows {
      return false;
    }
    db.Remove(id);
    deleted := true;
  }
}

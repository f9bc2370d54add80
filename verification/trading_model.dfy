/**
 * The `stock_investor_trading` entity: one record per stock and trade date, the factory that
 * copies its arguments, the two in-place updates and the dictionary it is serialised as, plus
 * the table of stored records that the service layer reads and writes.
 */
module TradingModel {

  import opened Wrappers
  import opened Values

  /** The thirteen columns of a record, as one value. */
  datatype TradingFields = TradingFields(
    id: Option<int>,
    stockCode: string,
    stockName: string,
    tradeDate: string,
    closePrice: Option<int>,
    institutionNetBuy: Option<int>,
    foreignerNetBuy: Option<int>,
    institutionAccum: Option<int>,
    foreignerAccum: Option<int>,
    institutionTrendSignal: Option<string>,
    institutionTrendScore: Option<Score>,
    foreignerTrendSignal: Option<string>,
    foreignerTrendScore: Option<Score>)

  /** The nine optional columns, as the factory and `update_info` take them (`None` = absent). */
  datatype TradingExtras = TradingExtras(
    closePrice: Option<int>,
    institutionNetBuy: Option<int>,
    foreignerNetBuy: Option<int>,
    institutionAccum: Option<int>,
    foreignerAccum: Option<int>,
    institutionTrendSignal: Option<string>,
    institutionTrendScore: Option<Score>,
    foreignerTrendSignal: Option<string>,
    foreignerTrendScore: Option<Score>)

  const NoExtras := TradingExtras(None, None, None, None, None, None, None, None, None)

  function ExtrasOf(f: TradingFields): TradingExtras {
    TradingExtras(f.closePrice, f.institutionNetBuy, f.foreignerNetBuy, f.institutionAccum,
                  f.foreignerAccum, f.institutionTrendSignal, f.institutionTrendScore,
                  f.foreignerTrendSignal, f.foreignerTrendScore)
  }

  /** The record `create_trading_data` builds: every argument in the column of the same name. */
  function NewTrading(code: string, name: string, date: string, e: TradingExtras): (f: TradingFields)
  {
    TradingFields(None, code, name, date, e.closePrice, e.institutionNetBuy, e.foreignerNetBuy,
                  e.institutionAccum, e.foreignerAccum, e.institutionTrendSignal,
                  e.institutionTrendScore, e.foreignerTrendSignal, e.foreignerTrendScore)
  }

  /** The factory copies each argument unchanged and leaves the id to the store. */
  lemma NewTradingCopiesArguments(code: string, name: string, date: string, e: TradingExtras)
    ensures var f := NewTrading(code, name, date, e);
      f.id == None && f.stockCode == code && f.stockName == name && f.tradeDate == date
      && ExtrasOf(f) == e
  {
  }

  function Keep<T>(given: Option<T>, current: Option<T>): Option<T> {
    if given.Some? then given else current
  }

  /** `update_info`: the name is always set, every other column only when given. */
  function ApplyUpdateInfo(f: TradingFields, name: string, e: TradingExtras): TradingFields {
    f.(stockName := name,
       closePrice := Keep(e.closePrice, f.closePrice),
       institutionNetBuy := Keep(e.institutionNetBuy, f.institutionNetBuy),
       foreignerNetBuy := Keep(e.foreignerNetBuy, f.foreignerNetBuy),
       institutionAccum := Keep(e.institutionAccum, f.institutionAccum),
       foreignerAccum := Keep(e.foreignerAccum, f.foreignerAccum),
       institutionTrendSignal := Keep(e.institutionTrendSignal, f.institutionTrendSignal),
       institutionTrendScore := Keep(e.institutionTrendScore, f.institutionTrendScore),
       foreignerTrendSignal := Keep(e.foreignerTrendSignal, f.foreignerTrendSignal),
       foreignerTrendScore := Keep(e.foreignerTrendScore, f.foreignerTrendScore))
  }

  /**
   * `update_info` never touches the key (`id`, `stock_code`, `trade_date`), and a `None`
   * argument leaves its column as it was, so no column can be cleared this way.
   */
  lemma UpdateInfoKeepsKeyAndAbsentColumns(f: TradingFields, name: string, e: TradingExtras)
    ensures var g := ApplyUpdateInfo(f, name, e);
      g.id == f.id && g.stockCode == f.stockCode && g.tradeDate == f.tradeDate
      && g.stockName == name
      && (e.closePrice.None? ==> g.closePrice == f.closePrice)
      && (e.institutionNetBuy.None? ==> g.institutionNetBuy == f.institutionNetBuy)
      && (e.foreignerNetBuy.None? ==> g.foreignerNetBuy == f.foreignerNetBuy)
      && (e.institutionAccum.None? ==> g.institutionAccum == f.institutionAccum)
      && (e.foreignerAccum.None? ==> g.foreignerAccum == f.foreignerAccum)
      && (e.institutionTrendSignal.None? ==> g.institutionTrendSignal == f.institutionTrendSignal)
      && (e.institutionTrendScore.None? ==> g.institutionTrendScore == f.institutionTrendScore)
      && (e.foreignerTrendSignal.None? ==> g.foreignerTrendSignal == f.foreignerTrendSignal)
      && (e.foreignerTrendScore.None? ==> g.foreignerTrendScore == f.foreignerTrendScore)
  {
  }

  /** Every given column ends up holding the given value. */
  lemma UpdateInfoSetsGivenColumns(f: TradingFields, name: string, e: TradingExtras)
    ensures var g := ApplyUpdateInfo(f, name, e);
      (e.closePrice.Some? ==> g.closePrice == e.closePrice)
      && (e.institutionNetBuy.Some? ==> g.institutionNetBuy == e.institutionNetBuy)
      && (e.foreignerNetBuy.Some? ==> g.foreignerNetBuy == e.foreignerNetBuy)
      && (e.institutionAccum.Some? ==> g.institutionAccum == e.institutionAccum)
      && (e.foreignerAccum.Some? ==> g.foreignerAccum == e.foreignerAccum)
      && (e.institutionTrendSignal.Some? ==> g.institutionTrendSignal == e.institutionTrendSignal)
      && (e.institutionTrendScore.Some? ==> g.institutionTrendScore == e.institutionTrendScore)
      && (e.foreignerTrendSignal.Some? ==> g.foreignerTrendSignal == e.foreignerTrendSignal)
      && (e.foreignerTrendScore.Some? ==> g.foreignerTrendScore == e.foreignerTrendScore)
  {
  }

  /** Applying the same update twice is applying it once. */
  lemma UpdateInfoIdempotent(f: TradingFields, name: string, e: TradingExtras)
    ensures ApplyUpdateInfo(ApplyUpdateInfo(f, name, e), name, e) == ApplyUpdateInfo(f, name, e)
  {
  }

  /** `update_trend_analysis`: the four trend columns are overwritten. */
  function ApplyTrendAnalysis(f: TradingFields, instSignal: string, instScore: Score,
                              frgSignal: string, frgScore: Score): TradingFields
  {
    f.(institutionTrendSignal := Some(instSignal), institutionTrendScore := Some(instScore),
       foreignerTrendSignal := Some(frgSignal), foreignerTrendScore := Some(frgScore))
  }

  /** The trend update changes exactly the four trend columns and nothing else. */
  lemma TrendAnalysisChangesOnlyTrend(f: TradingFields, instSignal: string, instScore: Score,
                                      frgSignal: string, frgScore: Score)
    ensures var g := ApplyTrendAnalysis(f, instSignal, instScore, frgSignal, frgScore);
      g.id == f.id && g.stockCode == f.stockCode && g.stockName == f.stockName
      && g.tradeDate == f.tradeDate && g.closePrice == f.closePrice
      && g.institutionNetBuy == f.institutionNetBuy && g.foreignerNetBuy == f.foreignerNetBuy
      && g.institutionAccum == f.institutionAccum && g.foreignerAccum == f.foreignerAccum
      && g.institutionTrendSignal == Some(instSignal) && g.institutionTrendScore == Some(instScore)
      && g.foreignerTrendSignal == Some(frgSignal) && g.foreignerTrendScore == Some(frgScore)
  {
  }

  /** The column names of `to_dict`. */
  const TradingColumns: set<string> := {
    "id", "stock_code", "stock_name", "trade_date", "close_price", "institution_net_buy",
    "foreigner_net_buy", "institution_accum", "foreigner_accum", "institution_trend_signal",
    "institution_trend_score", "foreigner_trend_signal", "foreigner_trend_score"}

  /** `to_dict`: one entry per column, `None` shown as JSON null. */
  function TradingDict(f: TradingFields): map<string, Value> {
    map[
      "id" := OptInt(f.id),
      "stock_code" := Str(f.stockCode),
      "stock_name" := Str(f.stockName),
      "trade_date" := Str(f.tradeDate),
      "close_price" := OptInt(f.closePrice),
      "institution_net_buy" := OptInt(f.institutionNetBuy),
      "foreigner_net_buy" := OptInt(f.foreignerNetBuy),
      "institution_accum" := OptInt(f.institutionAccum),
      "foreigner_accum" := OptInt(f.foreignerAccum),
      "institution_trend_signal" := OptStr(f.institutionTrendSignal),
      "institution_trend_score" := OptScore(f.institutionTrendScore),
      "foreigner_trend_signal" := OptStr(f.foreignerTrendSignal),
      "foreigner_trend_score" := OptScore(f.foreignerTrendScore)]
  }

  /** The dictionary has exactly the thirteen columns. */
  lemma TradingDictKeys(f: TradingFields)
    ensures TradingDict(f).Keys == TradingColumns
  {
  }

  /** The entries of the key and amount columns. */
  lemma TradingDictAmounts(f: TradingFields)
    ensures var d := TradingDict(f);
      && d["id"] == OptInt(f.id) && d["stock_code"] == Str(f.stockCode)
      && d["stock_name"] == Str(f.stockName) && d["trade_date"] == Str(f.tradeDate)
      && d["close_price"] == OptInt(f.closePrice)
      && d["institution_net_buy"] == OptInt(f.institutionNetBuy)
      && d["foreigner_net_buy"] == OptInt(f.foreignerNetBuy)
  {
  }

  /** The entries of the accumulation and trend columns. */
  lemma TradingDictTrends(f: TradingFields)
    ensures var d := TradingDict(f);
      && d["institution_accum"] == OptInt(f.institutionAccum)
      && d["foreigner_accum"] == OptInt(f.foreignerAccum)
      && d["institution_trend_signal"] == OptStr(f.institutionTrendSignal)
      && d["institution_trend_score"] == OptScore(f.institutionTrendScore)
      && d["foreigner_trend_signal"] == OptStr(f.foreignerTrendSignal)
      && d["foreigner_trend_score"] == OptScore(f.foreignerTrendScore)
  {
  }

  /**
   * The dictionary has exactly the thirteen columns, and it loses nothing: two records with
   * the same dictionary are the same record.
   */
  lemma TradingDictIsFaithful(f: TradingFields, g: TradingFields)
    ensures TradingDict(f).Keys == TradingColumns
    ensures TradingDict(f) == TradingDict(g) ==> f == g
  {
    TradingDictKeys(f);
    TradingDictAmounts(f);
    TradingDictAmounts(g);
    TradingDictTrends(f);
    TradingDictTrends(g);
  }

  /** Some stored record has this stock code and trade date. */
  predicate KeyIn(s: map<int, TradingFields>, code: string, date: string) {
    exists id | id in s :: s[id].stockCode == code && s[id].tradeDate == date
  }

  /** A record object: the thirteen columns as fields that the update methods assign. */
  class StockInvestorTrading {
    var id: Option<int>
    var stockCode: string
    var stockName: string
    var tradeDate: string
    var closePrice: Option<int>
    var institutionNetBuy: Option<int>
    var foreignerNetBuy: Option<int>
    var institutionAccum: Option<int>
    var foreignerAccum: Option<int>
    var institutionTrendSignal: Option<string>
    var institutionTrendScore: Option<Score>
    var foreignerTrendSignal: Option<string>
    var foreignerTrendScore: Option<Score>

    function Fields(): TradingFields
      reads this
    {
      TradingFields(id, stockCode, stockName, tradeDate, closePrice, institutionNetBuy,
                    foreignerNetBuy, institutionAccum, foreignerAccum, institutionTrendSignal,
                    institutionTrendScore, foreignerTrendSignal, foreignerTrendScore)
    }

    /** `StockInvestorTrading.create_trading_data`. */
    constructor (code: string, name: string, date: string, e: TradingExtras)
      ensures Fields() == NewTrading(code, name, date, e)
    {
      id := None;
      stockCode, stockName, tradeDate := code, name, date;
      closePrice, institutionNetBuy, foreignerNetBuy := e.closePrice, e.institutionNetBuy, e.foreignerNetBuy;
      institutionAccum, foreignerAccum := e.institutionAccum, e.foreignerAccum;
      institutionTrendSignal, institutionTrendScore := e.institutionTrendSignal, e.institutionTrendScore;
      foreignerTrendSignal, foreignerTrendScore := e.foreignerTrendSignal, e.foreignerTrendScore;
    }

    /** `to_dict`. */
    function ToDict(): (d: map<string, Value>)
      reads this
      ensures d.Keys == TradingColumns
      ensures d["id"] == OptInt(id) && d["stock_code"] == Str(stockCode)
      ensures d["trade_date"] == Str(tradeDate)
    {
      TradingDictKeys(Fields());
      TradingDict(Fields())
    }

    /** `update_info`. */
    method UpdateInfo(name: string, e: TradingExtras)
      modifies this
      ensures Fields() == ApplyUpdateInfo(old(Fields()), name, e)
    {
      stockName := name;
      UpdateAmounts(e);
      UpdateTrends(e);
    }

    /** The five amount columns of `update_info`, each only when given. */
    method UpdateAmounts(e: TradingExtras)
      modifies this
      ensures Fields() == old(Fields()).(
        closePrice := Keep(e.closePrice, old(closePrice)),
        institutionNetBuy := Keep(e.institutionNetBuy, old(institutionNetBuy)),
        foreignerNetBuy := Keep(e.foreignerNetBuy, old(foreignerNetBuy)),
        institutionAccum := Keep(e.institutionAccum, old(institutionAccum)),
        foreignerAccum := Keep(e.foreignerAccum, old(foreignerAccum)))
    {
      closePrice, institutionNetBuy, foreignerNetBuy :=
        Keep(e.closePrice, closePrice), Keep(e.institutionNetBuy, institutionNetBuy), Keep(e.foreignerNetBuy, foreignerNetBuy);
      institutionAccum, foreignerAccum := Keep(e.institutionAccum, institutionAccum), Keep(e.foreignerAccum, foreignerAccum);
    }

    /** The four trend columns of `update_info`, each only when given. */
    method UpdateTrends(e: TradingExtras)
      modifies this
      ensures Fields() == old(Fields()).(
        institutionTrendSignal := Keep(e.institutionTrendSignal, old(institutionTrendSignal)),
        institutionTrendScore := Keep(e.institutionTrendScore, old(institutionTrendScore)),
        foreignerTrendSignal := Keep(e.foreignerTrendSignal, old(foreignerTrendSignal)),
        foreignerTrendScore := Keep(e.foreignerTrendScore, old(foreignerTrendScore)))
    {
      institutionTrendSignal, institutionTrendScore :=
        Keep(e.institutionTrendSignal, institutionTrendSignal), Keep(e.institutionTrendScore, institutionTrendScore);
      foreignerTrendSignal, foreignerTrendScore :=
        Keep(e.foreignerTrendSignal, foreignerTrendSignal), Keep(e.foreignerTrendScore, foreignerTrendScore);
    }

    /** `update_trend_analysis`. */
    method UpdateTrendAnalysis(instSignal: string, instScore: Score, frgSignal: string, frgScore: Score)
      modifies this
      ensures Fields() == ApplyTrendAnalysis(old(Fields()), instSignal, instScore, frgSignal, frgScore)
    {
      institutionTrendSignal := Some(instSignal);
      institutionTrendScore := Some(instScore);
      foreignerTrendSignal := Some(frgSignal);
      foreignerTrendScore := Some(frgScore);
    }
  }

  /**
   * The stored records, keyed by their auto-increment id. Each stored object carries its own
   * key in its `id` field, so no object is stored under two ids.
   */
  class TradingTable {
    var rows: map<int, StockInvestorTrading>
    var nextId: int

    ghost function Records(): set<StockInvestorTrading>
      reads this
    {
      set id | id in rows :: rows[id]
    }

    ghost predicate Valid()
      reads this, Records()
    {
      && nextId >= 1
      && forall id | id in rows :: 1 <= id < nextId && rows[id].id == Some(id)
    }

    /** The stored records as values. */
    ghost function Snapshot(): map<int, TradingFields>
      reads this, Records()
    {
      map id | id in rows :: rows[id].Fields()
    }

    constructor ()
      ensures Valid() && Snapshot() == map[] && nextId == 1
    {
      rows := map[];
      nextId := 1;
    }

    /** `query.filter_by(stock_code=code, trade_date=date).first() is not None`. */
    function HasKey(code: string, date: string): (b: bool)
      reads this, Records()
      ensures b <==> KeyIn(Snapshot(), code, date)
    {
      assert forall id | id in rows :: Snapshot()[id] == rows[id].Fields();
      exists id | id in rows :: rows[id].stockCode == code && rows[id].tradeDate == date
    }

    /** The trade dates stored for a code: `{d.trade_date for d in filter_by(stock_code=code)}`. */
    function DatesOf(code: string): (ds: set<string>)
      reads this, Records()
      ensures forall d :: d in ds <==> HasKey(code, d)
    {
      set id | id in rows && rows[id].stockCode == code :: rows[id].tradeDate
    }

    /** `db.session.add(record)` followed by a commit: the record gets the next id. */
    method Add(rec: StockInvestorTrading)
      requires Valid() && rec !in Records()
      modifies this, rec
      ensures Valid() && nextId == old(nextId) + 1
      ensures rec.Fields() == old(rec.Fields()).(id := Some(old(nextId)))
      ensures rows == old(rows)[old(nextId) := rec]
      ensures Snapshot() == old(Snapshot())[old(nextId) := rec.Fields()]
    {
      rec.id := Some(nextId);
      rows := rows[nextId := rec];
      nextId := nextId + 1;
      assert forall id | id in old(rows) :: old(rows)[id] != rec;
    }

    /** `update_info` on the record stored under `id`; every other record is untouched. */
    method UpdateInfoAt(id: int, name: string, e: TradingExtras)
      requires Valid() && id in rows
      modifies rows[id]
      ensures Valid()
      ensures Snapshot() == old(Snapshot())[id := ApplyUpdateInfo(old(Snapshot())[id], name, e)]
    {
      var rec := rows[id];
      assert forall j | j in rows && j != id :: rows[j] != rec;
      rec.UpdateInfo(name, e);
      assert forall j | j in rows :: Snapshot()[j] == old(Snapshot())[id := rec.Fields()][j];
    }

    /** `update_trend_analysis` on the record stored under `id`; every other record is untouched. */
    method UpdateTrendAt(id: int, instSignal: string, instScore: Score, frgSignal: string, frgScore: Score)
      requires Valid() && id in rows
      modifies rows[id]
      ensures Valid()
      ensures Snapshot() == old(Snapshot())[id := ApplyTrendAnalysis(old(Snapshot())[id], instSignal, instScore, frgSignal, frgScore)]
    {
      var rec := rows[id];
      assert forall j | j in rows && j != id :: rows[j] != rec;
      rec.UpdateTrendAnalysis(instSignal, instScore, frgSignal, frgScore);
      assert forall j | j in rows :: Snapshot()[j] == old(Snapshot())[id := rec.Fields()][j];
    }
  }
}

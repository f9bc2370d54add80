/**
 * The `stock_list` entity: one instrument with a unique code, its factory, its two in-place
 * updates and its dictionary form, plus the table of stored instruments, on which the
 * database enforces that no two rows share a code.
 */
module StockModel {

  import opened Wrappers
  import opened Values

  /** The six columns of an instrument, as one value. */
  datatype StockFields = StockFields(
    id: Option<int>,
    stockCode: string,
    stockName: string,
    initDate: Option<string>,
    institutionAccumInit: int,
    foreignerAccumInit: int)

  /** The instrument `create_stock` builds from its arguments; the accum-inits default to 0. */
  function NewStock(code: string, name: string, initDate: Option<string> := None,
                    institutionAccumInit: int := 0, foreignerAccumInit: int := 0): StockFields
  {
    StockFields(None, code, name, initDate, institutionAccumInit, foreignerAccumInit)
  }

  /** The factory copies its arguments, with both accum-inits 0 when they are not given. */
  lemma NewStockDefaults(code: string, name: string)
    ensures NewStock(code, name) == StockFields(None, code, name, None, 0, 0)
  {
  }

  /** `update_info`: the name is always set, the other columns only when given. */
  function ApplyStockUpdate(f: StockFields, name: string, initDate: Option<string>,
                            institutionAccumInit: Option<int>, foreignerAccumInit: Option<int>): StockFields
  {
    f.(stockName := name,
       initDate := if initDate.Some? then initDate else f.initDate,
       institutionAccumInit := institutionAccumInit.GetOr(f.institutionAccumInit),
       foreignerAccumInit := foreignerAccumInit.GetOr(f.foreignerAccumInit))
  }

  /** `update_info` keeps `id` and `stock_code`, and a `None` argument keeps its column. */
  lemma StockUpdateKeepsKeyAndAbsentColumns(f: StockFields, name: string, initDate: Option<string>,
                                            inst: Option<int>, frg: Option<int>)
    ensures var g := ApplyStockUpdate(f, name, initDate, inst, frg);
      g.id == f.id && g.stockCode == f.stockCode && g.stockName == name
      && g.initDate == (if initDate.Some? then initDate else f.initDate)
      && g.institutionAccumInit == (if inst.Some? then inst.value else f.institutionAccumInit)
      && g.foreignerAccumInit == (if frg.Some? then frg.value else f.foreignerAccumInit)
  {
  }

  /** `update_accum_values`: exactly the two accum-init columns. */
  function ApplyAccumValues(f: StockFields, inst: int, frg: int): StockFields {
    f.(institutionAccumInit := inst, foreignerAccumInit := frg)
  }

  lemma AccumValuesChangeOnlyAccums(f: StockFields, inst: int, frg: int)
    ensures var g := ApplyAccumValues(f, inst, frg);
      g.id == f.id && g.stockCode == f.stockCode && g.stockName == f.stockName
      && g.initDate == f.initDate && g.institutionAccumInit == inst && g.foreignerAccumInit == frg
  {
  }

  const StockColumns: set<string> := {
    "id", "stock_code", "stock_name", "init_date", "institution_accum_init", "foreigner_accum_init"}

  /** `to_dict`. */
  function StockDict(f: StockFields): map<string, Value> {
    map[
      "id" := OptInt(f.id),
      "stock_code" := Str(f.stockCode),
      "stock_name" := Str(f.stockName),
      "init_date" := OptStr(f.initDate),
      "institution_accum_init" := Int(f.institutionAccumInit),
      "foreigner_accum_init" := Int(f.foreignerAccumInit)]
  }

  /** The dictionary has exactly the six columns and determines the instrument. */
  lemma StockDictIsFaithful(f: StockFields, g: StockFields)
    ensures StockDict(f).Keys == StockColumns
    ensures StockDict(f) == StockDict(g) ==> f == g
  {
    if StockDict(f) == StockDict(g) {
      var a, b := StockDict(f), StockDict(g);
      assert a["id"] == b["id"] && a["init_date"] == b["init_date"];
      assert a["stock_code"] == b["stock_code"] && a["stock_name"] == b["stock_name"];
      assert a["institution_accum_init"] == b["institution_accum_init"];
      assert a["foreigner_accum_init"] == b["foreigner_accum_init"];
    }
  }

  /** An instrument object: the six columns as fields that the update methods assign. */
  class StockList {
    var id: Option<int>
    var stockCode: string
    var stockName: string
    var initDate: Option<string>
    var institutionAccumInit: int
    var foreignerAccumInit: int

    function Fields(): StockFields
      reads this
    {
      StockFields(id, stockCode, stockName, initDate, institutionAccumInit, foreignerAccumInit)
    }

    /** `StockList.create_stock`. */
    constructor (code: string, name: string, initDate: Option<string> := None,
                 institutionAccumInit: int := 0, foreignerAccumInit: int := 0)
      ensures Fields() == NewStock(code, name, initDate, institutionAccumInit, foreignerAccumInit)
    {
      id := None;
      stockCode, stockName, this.initDate := code, name, initDate;
      this.institutionAccumInit, this.foreignerAccumInit := institutionAccumInit, foreignerAccumInit;
    }

    /** `to_dict`. */
    function ToDict(): (d: map<string, Value>)
      reads this
      ensures d.Keys == StockColumns
      ensures d["id"] == OptInt(id) && d["stock_code"] == Str(stockCode)
    {
      StockDict(Fields())
    }

    /** `update_info`. */
    method UpdateInfo(name: string, initDate: Option<string>, inst: Option<int>, frg: Option<int>)
      modifies this
      ensures Fields() == ApplyStockUpdate(old(Fields()), name, initDate, inst, frg)
    {
      stockName := name;
      if initDate.Some? { this.initDate := initDate; }
      if inst.Some? { institutionAccumInit := inst.value; }
      if frg.Some? { foreignerAccumInit := frg.value; }
    }

    /** `update_accum_values`. */
    method UpdateAccumValues(inst: int, frg: int)
      modifies this
      ensures Fields() == ApplyAccumValues(old(Fields()), inst, frg)
    {
      institutionAccumInit := inst;
      foreignerAccumInit := frg;
    }
  }

  /**
   * The stored instruments, keyed by id. `stock_code` is declared unique, so the store never
   * holds two rows with the same code: that is part of `Valid()`.
   */
  class StockTable {
    var rows: map<int, StockList>
    var nextId: int

    ghost function Records(): set<StockList>
      reads this
    {
      set id | id in rows :: rows[id]
    }

    ghost predicate Valid()
      reads this, Records()
    {
      && nextId >= 1
      && (forall id | id in rows :: 1 <= id < nextId && rows[id].id == Some(id))
      && (forall a, b | a in rows && b in rows && rows[a].stockCode == rows[b].stockCode :: a == b)
    }

    ghost function Snapshot(): map<int, StockFields>
      reads this, Records()
    {
      map id | id in rows :: rows[id].Fields()
    }

    constructor ()
      ensures Valid() && Snapshot() == map[] && nextId == 1
    {
      rows := map[];
      nextId := 1;
    }

    /** Whether some stored instrument has this code. */
    function HasCode(code: string): (b: bool)
      reads this, Records()
      ensures b <==> exists id | id in Snapshot() :: Snapshot()[id].stockCode == code
    {
      assert forall id | id in rows :: Snapshot()[id] == rows[id].Fields();
      exists id | id in rows :: rows[id].stockCode == code
    }

    /** `query.filter_by(stock_code=code).first()`. */
    method FindByCode(code: string) returns (r: Option<StockList>)
      requires Valid()
      ensures r.Some? <==> HasCode(code)
      ensures r.Some? ==> r.value in Records() && r.value.stockCode == code
    {
      if HasCode(code) {
        var id :| id in rows && rows[id].stockCode == code;
        r := Some(rows[id]);
      } else {
        r := None;
      }
    }

    /** `db.session.add(stock)` followed by a commit: the instrument gets the next id. */
    method Add(rec: StockList)
      requires Valid() && rec !in Records() && !HasCode(rec.stockCode)
      modifies this, rec
      ensures Valid() && nextId == old(nextId) + 1
      ensures rec.Fields() == old(rec.Fields()).(id := Some(old(nextId)))
      ensures rows == old(rows)[old(nextId) := rec]
      ensures Snapshot() == old(Snapshot())[old(nextId) := rec.Fields()]
    {
      rec.id := Some(nextId);
      rows := rows[nextId := rec];
      nextId := nextId + 1;
      assert forall id | id in old(rows) :: old(rows)[id] != rec;
    }

    /** `update_info` on the instrument stored under `id`; every other instrument is untouched. */
    method UpdateInfoAt(id: int, name: string, initDate: Option<string>, inst: Option<int>, frg: Option<int>)
      requires Valid() && id in rows
      modifies rows[id]
      ensures Valid()
      ensures Snapshot() == old(Snapshot())[id := ApplyStockUpdate(old(Snapshot())[id], name, initDate, inst, frg)]
    {
      var rec := rows[id];
      assert forall j | j in rows && j != id :: rows[j] != rec;
      rec.UpdateInfo(name, initDate, inst, frg);
      assert forall j | j in rows :: rows[j].stockCode == old(rows[j].stockCode) && rows[j].id == old(rows[j].id);
      assert forall j | j in rows :: Snapshot()[j] == old(Snapshot())[id := rec.Fields()][j];
    }

    /** `update_accum_values` on the instrument stored under `id`; every other one is untouched. */
    method UpdateAccumAt(id: int, inst: int, frg: int)
      requires Valid() && id in rows
      modifies rows[id]
      ensures Valid()
      ensures Snapshot() == old(Snapshot())[id := ApplyAccumValues(old(Snapshot())[id], inst, frg)]
    {
      var rec := rows[id];
      assert forall j | j in rows && j != id :: rows[j] != rec;
      rec.UpdateAccumValues(inst, frg);
      assert forall j | j in rows :: rows[j].stockCode == old(rows[j].stockCode) && rows[j].id == old(rows[j].id);
      assert forall j | j in rows :: Snapshot()[j] == old(Snapshot())[id := rec.Fields()][j];
    }

    /** `db.session.delete(stock)` followed by a commit. */
    method Remove(id: int)
      requires Valid() && id in rows
      modifies this
      ensures Valid() && nextId == old(nextId)
      ensures rows == old(rows) - {id}
      ensures Snapshot() == old(Snapshot()) - {id}
    {
      rows := rows - {id};
    }
  }
}

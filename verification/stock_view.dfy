/**
 * The instrument endpoints (`stock_bp`): the guards each handler applies to the path id and
 * the JSON body before it calls the stock service, the status code each outcome gets, and the
 * merge of the name and code searches.
 *
 * A request body is modelled as whether it was sent as JSON and the object it decodes to. A
 * handler returns its status code and, where the source answers with `to_dict()` of an
 * instrument, that instrument's columns.
 */
module StockView {

  import opened Wrappers
  import opened PyText
  import opened Values
  import opened StockModel
  import StockService

  /** The request as the handlers see it: `request.is_json` and the decoded object. */
  datatype Body = Body(isJson: bool, data: map<string, Json>)

  /** `data.get(key)`. */
  function Field(data: map<string, Json>, key: string): Option<Json> {
    if key in data then Some(data[key]) else None
  }

  /** `not request.is_json` or `not data` (an empty object is falsy): both answer 400. */
  predicate BodyMissing(body: Body) {
    !body.isJson || body.data == map[]
  }

  /**
   * A required text field: rejected when it is missing, falsy, not a string or blank after
   * strip. Falsiness adds nothing to the other tests: what passes is exactly a non-blank string.
   */
  function RequiredText(v: Option<Json>): (r: Option<string>)
    ensures r.Some? <==> v.Some? && v.value.JStr? && Strip(v.value.s) != []
    ensures r.Some? ==> r.value == v.value.s
  {
    if v.Some? && Truthy(v.value) && v.value.JStr? && Strip(v.value.s) != [] then Some(v.value.s) else None
  }

  /**
   * `init_date`: rejected (`None`) when it is present, not `null` and not a string; otherwise
   * the string, if there is one.
   */
  function OptionalText(v: Option<Json>): Option<Option<string>> {
    if v.None? || v.value.JNull? then Some(None)
    else if v.value.JStr? then Some(Some(v.value.s))
    else None
  }

  /** `init_date.strip() if init_date else None`: an empty string becomes `None`. */
  function ServiceDate(d: Option<string>): Option<string> {
    if d.Some? && d.value != [] then Some(Strip(d.value)) else None
  }

  /** `data.get(key, 0)` checked with `isinstance(v, int)`: absent means 0, a `bool` counts as an int. */
  function IntOrZero(v: Option<Json>): Option<int> {
    if v.None? then Some(0) else AsPyInt(v.value)
  }

  /** `data.get(key)` allowed to be `None`, otherwise checked with `isinstance(v, int)`. */
  function OptionalInt(v: Option<Json>): Option<Option<int>> {
    if v.None? || v.value.JNull? then Some(None)
    else if AsPyInt(v.value).Some? then Some(AsPyInt(v.value))
    else None
  }

  /** `data.get(key)` required to be an int: `None` (absent or `null`) and non-ints are refused. */
  function RequiredInt(v: Option<Json>): Option<int> {
    if v.None? then None else AsPyInt(v.value)
  }

  /** The arguments `create_stock_api` passes to the service. */
  datatype NewStockArgs = NewStockArgs(code: string, name: string, initDate: Option<string>, inst: int, frg: int)

  /** The create handler's checks on the body, and the arguments it then passes on; `None` answers 400. */
  function CreateArgs(body: Body): (r: Option<NewStockArgs>)
    ensures r.Some? ==> !BodyMissing(body)
    ensures r.Some? ==> r.value.code != [] && Strip(r.value.code) == r.value.code
    ensures r.Some? ==> r.value.name != [] && Strip(r.value.name) == r.value.name
    ensures r.Some? && "institution_accum_init" !in body.data ==> r.value.inst == 0
    ensures r.Some? && "foreigner_accum_init" !in body.data ==> r.value.frg == 0
    ensures "institution_accum_init" in body.data && AsPyInt(body.data["institution_accum_init"]).None? ==> r.None?
    ensures "foreigner_accum_init" in body.data && AsPyInt(body.data["foreigner_accum_init"]).None? ==> r.None?
  {
    if BodyMissing(body) then None
    else
      var code := RequiredText(Field(body.data, "stock_code"));
      var name := RequiredText(Field(body.data, "stock_name"));
      var date := OptionalText(Field(body.data, "init_date"));
      var inst := IntOrZero(Field(body.data, "institution_accum_init"));
      var frg := IntOrZero(Field(body.data, "foreigner_accum_init"));
      if code.None? || name.None? || date.None? || inst.None? || frg.None? then None
      else
        StripIdempotent(code.value);
        StripIdempotent(name.value);
        Some(NewStockArgs(Strip(code.value), Strip(name.value), ServiceDate(date.value), inst.value, frg.value))
  }

  /** `get_stock`: 400 for an id that is not positive, 404 when absent, otherwise the instrument. */
  method GetStock(db: StockTable, id: int) returns (code: int, stock: Option<StockFields>)
    ensures id <= 0 ==> code == 400 && stock.None?
    ensures id > 0 && id !in db.rows ==> code == 404 && stock.None?
    ensures id > 0 && id in db.rows ==> code == 200 && stock == Some(db.rows[id].Fields())
  {
    if id <= 0 {
      return 400, None;
    }
    var found := StockService.GetStockById(db, id);
    if found.None? {
      return 404, None;
    }
    code, stock := 200, Some(found.value.Fields());
  }

  /**
   * `create_stock_api`: 400 when the body fails the handler's checks; otherwise the service
   * either stores the instrument (201) or refuses it, for a failed check or a code already
   * stored, and the refusal reaches the handler as a generic exception (500).
   */
  method CreateStockApi(db: StockTable, body: Body) returns (code: int, stock: Option<StockFields>)
    requires db.Valid()
    modifies db
    ensures db.Valid()
    ensures CreateArgs(body).None? ==> code == 400
    ensures CreateArgs(body).Some? ==> var a := CreateArgs(body).value;
      (code == 201 <==> StockService.CheckNewStock(a.code, a.name, a.initDate, a.inst, a.frg).None?
                        && !old(db.HasCode(a.code)))
      && (code != 201 ==> code == 500)
      && (code == 201 ==> stock == Some(StockService.NewStockOf(a.code, a.name, a.initDate, a.inst, a.frg)
                                          .(id := Some(old(db.nextId)))))
    ensures code == 201 ==> stock.Some? && db.Snapshot() == old(db.Snapshot())[old(db.nextId) := stock.value]
    ensures code != 201 ==> stock.None? && db.Snapshot() == old(db.Snapshot())
  {
    var args := CreateArgs(body);
    if args.None? {
      return 400, None;
    }
    var a := args.value;
    var r := StockService.CreateStock(db, a.code, a.name, a.initDate, a.inst, a.frg);
    if r.Err? {
      return 500, None;
    }
    code, stock := 201, Some(r.value.Fields());
  }

  /** The arguments `update_stock_api` passes to the service. */
  datatype StockUpdateArgs = StockUpdateArgs(name: string, initDate: Option<string>, inst: Option<int>, frg: Option<int>)

  /** The update handler's checks on the body, and the arguments it then passes on; `None` answers 400. */
  function UpdateArgs(body: Body): (r: Option<StockUpdateArgs>)
    ensures r.Some? ==> !BodyMissing(body) && r.value.name != [] && Strip(r.value.name) == r.value.name
    ensures r.Some? && "institution_accum_init" !in body.data ==> r.value.inst.None?
    ensures r.Some? && "foreigner_accum_init" !in body.data ==> r.value.frg.None?
    ensures r.Some? && "institution_accum_init" in body.data && !body.data["institution_accum_init"].JNull? ==>
      r.value.inst == AsPyInt(body.data["institution_accum_init"])
  {
    if BodyMissing(body) then None
    else
      var name := RequiredText(Field(body.data, "stock_name"));
      var date := OptionalText(Field(body.data, "init_date"));
      var inst := OptionalInt(Field(body.data, "institution_accum_init"));
      var frg := OptionalInt(Field(body.data, "foreigner_accum_init"));
      if name.None? || date.None? || inst.None? || frg.None? then None
      else
        StripIdempotent(name.value);
        Some(StockUpdateArgs(Strip(name.value), ServiceDate(date.value), inst.value, frg.value))
  }

  /**
   * `update_stock_api`: 400 for an id that is not positive, before the body is looked at, and
   * for a body that fails the handler's checks; 500 when the service's checks refuse the
   * arguments (they run before the lookup, so this wins over 404); 404 for an absent id;
   * otherwise the instrument as updated (200). Only a 200 changes anything.
   */
  method UpdateStockApi(db: StockTable, id: int, body: Body) returns (code: int, stock: Option<StockFields>)
    requires db.Valid()
    modifies db.Records()
    ensures db.Valid() && db.rows == old(db.rows)
    ensures id <= 0 || UpdateArgs(body).None? ==> code == 400
    ensures id > 0 && UpdateArgs(body).Some? ==> var a := UpdateArgs(body).value;
      code == (if StockService.CheckStockUpdate(a.name, a.initDate, a.inst, a.frg).Some? then 500
               else if id !in db.rows then 404 else 200)
      && (code == 200 ==>
            db.Snapshot() == old(db.Snapshot())[id := ApplyStockUpdate(old(db.Snapshot())[id], Strip(a.name), a.initDate, a.inst, a.frg)])
    ensures code == 200 ==> id in db.rows && stock == Some(db.Snapshot()[id])
    ensures code != 200 ==> stock.None? && db.Snapshot() == old(db.Snapshot())
  {
    if id <= 0 {
      return 400, None;
    }
    var args := UpdateArgs(body);
    if args.None? {
      return 400, None;
    }
    var a := args.value;
    var r := StockService.UpdateStock(db, id, a.name, a.initDate, a.inst, a.frg);
    if r.Err? {
      return 500, None;
    }
    if r.value.None? {
      return 404, None;
    }
    code, stock := 200, Some(r.value.value.Fields());
  }

  /**
   * `delete_stock_api`: 400 for an id that is not positive, 404 with nothing deleted when the
   * instrument is absent, otherwise the instrument is deleted (200). The 500 answer for a
   * failed delete cannot happen after the existence check.
   */
  method DeleteStockApi(db: StockTable, id: int) returns (code: int)
    requires db.Valid()
    modifies db
    ensures db.Valid()
    ensures code == (if id <= 0 then 400 else if id !in old(db.rows) then 404 else 200)
    ensures db.Snapshot() == if code == 200 then old(db.Snapshot()) - {id} else old(db.Snapshot())
  {
    if id <= 0 {
      return 400;
    }
    var existing := StockService.GetStockById(db, id);
    if existing.None? {
      return 404;
    }
    var success := StockService.DeleteStock(db, id);
    code := if success then 200 else 500;
  }

  /** The two accum-inits the accum handler requires, or `None` (400). */
  function AccumArgs(body: Body): (r: Option<(int, int)>)
    ensures r.Some? ==>
      !BodyMissing(body) && "institution_accum_init" in body.data && "foreigner_accum_init" in body.data
  {
    if BodyMissing(body) then None
    else
      var inst := RequiredInt(Field(body.data, "institution_accum_init"));
      var frg := RequiredInt(Field(body.data, "foreigner_accum_init"));
      if inst.None? || frg.None? then None else Some((inst.value, frg.value))
  }

  /**
   * `update_accum_values` (the handler): 400 for an id that is not positive or a body without
   * two ints; 500 when the service refuses a negative value (before the lookup); 404 for an
   * absent id; otherwise the instrument with both accum-inits set (200).
   */
  method UpdateAccumApi(db: StockTable, id: int, body: Body) returns (code: int, stock: Option<StockFields>)
    requires db.Valid()
    modifies db.Records()
    ensures db.Valid() && db.rows == old(db.rows)
    ensures id <= 0 || AccumArgs(body).None? ==> code == 400
    ensures id > 0 && AccumArgs(body).Some? ==> var (inst, frg) := AccumArgs(body).value;
      code == (if inst < 0 || frg < 0 then 500 else if id !in db.rows then 404 else 200)
      && (code == 200 ==> db.Snapshot() == old(db.Snapshot())[id := ApplyAccumValues(old(db.Snapshot())[id], inst, frg)])
    ensures code == 200 ==> id in db.rows && stock == Some(db.Snapshot()[id])
    ensures code != 200 ==> stock.None? && db.Snapshot() == old(db.Snapshot())
  {
    if id <= 0 {
      return 400, None;
    }
    var args := AccumArgs(body);
    if args.None? {
      return 400, None;
    }
    var (inst, frg) := args.value;
    var r := StockService.UpdateAccumValues(db, id, inst, frg);
    if r.Err? {
      return 500, None;
    }
    if r.value.None? {
      return 404, None;
    }
    code, stock := 200, Some(r.value.value.Fields());
  }

  /** The ids of a list of instruments: `{stock.id for stock in stocks}`. */
  function IdsOf(stocks: seq<StockFields>): set<Option<int>> {
    set s | s in stocks :: s.id
  }

  /** The code matches whose id is not among `seen`, in their order. */
  function NewIds(coded: seq<StockFields>, seen: set<Option<int>>): seq<StockFields> {
    if coded == [] then []
    else
      var last := coded[|coded| - 1];
      NewIds(coded[..|coded| - 1], seen) + (if last.id in seen then [] else [last])
  }

  /** The search result: the name matches, then the code matches whose id the name matches do not have. */
  function Merge(named: seq<StockFields>, coded: seq<StockFields>): seq<StockFields> {
    named + NewIds(coded, IdsOf(named))
  }

  /**
   * `search_stocks`: 400 unless the stripped `name` or the stripped `code` is non-blank; the
   * searches are run only for a non-blank term. The two searches of the stock service (SQL
   * `LIKE` queries) are parameters.
   */
  method SearchStocks(nameArg: string, codeArg: string,
                      byName: string -> seq<StockFields>, byCode: string -> seq<StockFields>)
    returns (code: int, stocks: seq<StockFields>)
    ensures code == 400 <==> Strip(nameArg) == [] && Strip(codeArg) == []
    ensures code == 400 || code == 200
    ensures code == 400 ==> stocks == []
    ensures code == 200 ==>
      stocks == Merge(if Strip(nameArg) != [] then byName(Strip(nameArg)) else [],
                      if Strip(codeArg) != [] then byCode(Strip(codeArg)) else [])
  {
    var name := Strip(nameArg);
    var codeTerm := Strip(codeArg);
    if name == [] && codeTerm == [] {
      return 400, [];
    }
    stocks := [];
    if name != [] {
      stocks := stocks + byName(name);
    }
    ghost var named := if name != [] then byName(name) else [];
    assert stocks == named;
    if codeTerm != [] {
      var codeStocks := byCode(codeTerm);
      var existingIds := set s | s in stocks :: s.id;
      assert existingIds == IdsOf(named);
      stocks := stocks + NewIds(codeStocks, existingIds);
    } else {
      assert stocks == Merge(named, []);
    }
    code := 200;
  }

  /** What the code matches contribute: exactly those whose id is not in `seen`. */
  lemma {:induction false} NewIdsFilter(coded: seq<StockFields>, seen: set<Option<int>>)
    ensures |NewIds(coded, seen)| <= |coded|
    ensures forall s | s in NewIds(coded, seen) :: s in coded && s.id !in seen
    ensures forall s | s in coded && s.id !in seen :: s in NewIds(coded, seen)
  {
    if coded != [] {
      var init := coded[..|coded| - 1];
      NewIdsFilter(init, seen);
      assert coded == init + [coded[|coded| - 1]];
    }
  }

  /** No code match is dropped when none of them shares an id with `seen`, and the order is kept. */
  lemma {:induction false} NewIdsKeepsAll(coded: seq<StockFields>, seen: set<Option<int>>)
    requires forall s | s in coded :: s.id !in seen
    ensures NewIds(coded, seen) == coded
  {
    if coded != [] {
      var init := coded[..|coded| - 1];
      NewIdsKeepsAll(init, seen);
      assert coded == init + [coded[|coded| - 1]];
    }
  }

  /**
   * The search result starts with the name matches in their order; every entry is a name or a
   * code match; a code match is missing only when a name match has its id; and with no id in
   * common the result is the name matches followed by the code matches.
   */
  lemma MergeContents(named: seq<StockFields>, coded: seq<StockFields>)
    ensures Merge(named, coded)[..|named|] == named
    ensures forall s | s in Merge(named, coded) :: s in named || s in coded
    ensures forall s | s in coded :: s in Merge(named, coded) || exists t | t in named :: t.id == s.id
    ensures (forall s, t | s in coded && t in named :: s.id != t.id) ==> Merge(named, coded) == named + coded
  {
    var seen := IdsOf(named);
    NewIdsFilter(coded, seen);
    if forall s, t | s in coded && t in named :: s.id != t.id {
      NewIdsKeepsAll(coded, seen);
    }
  }

  /** No two entries of a list share an id. */
  predicate DistinctIds(stocks: seq<StockFields>) {
    forall i, j | 0 <= i < j < |stocks| :: stocks[i].id != stocks[j].id
  }

  lemma {:induction false} NewIdsDistinct(coded: seq<StockFields>, seen: set<Option<int>>)
    requires DistinctIds(coded)
    ensures DistinctIds(NewIds(coded, seen))
  {
    if coded != [] {
      var init := coded[..|coded| - 1];
      var last := coded[|coded| - 1];
      NewIdsDistinct(init, seen);
      NewIdsFilter(init, seen);
      var kept := NewIds(init, seen);
      if last.id !in seen {
        forall i | 0 <= i < |kept| ensures kept[i].id != last.id {
          assert kept[i] in init;
          var k :| 0 <= k < |init| && init[k] == kept[i];
          assert coded[k] == init[k];
        }
      }
    }
  }

  /** When neither search repeats an id, the search result repeats none either. */
  lemma MergeDistinct(named: seq<StockFields>, coded: seq<StockFields>)
    requires DistinctIds(named) && DistinctIds(coded)
    ensures DistinctIds(Merge(named, coded))
  {
    var seen := IdsOf(named);
    var extra := NewIds(coded, seen);
    NewIdsDistinct(coded, seen);
    NewIdsFilter(coded, seen);
    var m := Merge(named, coded);
    forall i, j | 0 <= i < j < |m| ensures m[i].id != m[j].id {
      if j >= |named| && i < |named| {
        assert m[j] == extra[j - |named|];
        assert m[j] in extra;
        assert m[i] == named[i];
      } else if i >= |named| {
        assert m[i] == extra[i - |named|] && m[j] == extra[j - |named|];
      }
    }
  }
}

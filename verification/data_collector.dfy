/**
 * `DataCollectorService`: the page crawl of one stock's investor-trading table, the save loop
 * that stores what the crawl found, the seeding of the default instrument list and the loop
 * over every stored instrument.
 *
 * The quotation site is a finite list of responses, one per page number (page 1 first); asking
 * for a page past its end is a failed request. A response is either a failed request (any
 * exception while fetching or parsing) or an HTTP status with the `table.type2` tables of the
 * page, each a list of rows, each row the texts of its `td` cells.
 */
module DataCollector {

  import opened Wrappers
  import opened PyText
  import opened Dates
  import opened CollectorParsing
  import opened TradingModel
  import opened StockModel
  import TradingService
  import StockService
  import Patterns

  type Row = seq<string>
  type Table = seq<Row>

  datatype Response = RequestFailed | Page(status: int, tables: seq<Table>)

  /**
   * `start_date`, the day the collection window opens and whether its time of day is past
   * midnight. Crawled dates are midnights, so a row dated on that day is older than the
   * cutoff exactly when the cutoff is past midnight.
   */
  datatype Cutoff = Cutoff(day: Date, afterMidnight: bool)

  /** `date_obj < start_date`. */
  predicate OlderThan(d: Date, c: Cutoff) {
    Before(d, c.day) || (d == c.day && c.afterMidnight)
  }

  /** One collected row: the dictionary `crawl_trading_data` appends. */
  datatype TradingRow = TradingRow(tradeDate: string, closePrice: int, institutionNetBuy: int, foreignerNetBuy: int)

  /** What the row loop does with one row: skip it, stop the crawl, or keep it. */
  datatype RowOutcome = Skip | Older | Keep(row: TradingRow)

  /**
   * The body of the row loop: more than six cells, a non-blank first cell that `parse_date`
   * accepts, re-read with `%Y-%m-%d` and compared with the cutoff, then columns 1, 5 and 6
   * through `parse_number`.
   */
  function ClassifyRow(cols: Row, cutoff: Cutoff): RowOutcome {
    if |cols| <= 6 then Skip
    else
      var dateStr := Strip(cols[0]);
      if dateStr == [] then Skip
      else match ParseDate(dateStr)
        case None => Skip
        case Some(parsed) =>
          ParseDateOutput(dateStr);
          var dateObj := Strptime(parsed, '-').value;
          if OlderThan(dateObj, cutoff) then Older
          else
            var close := ParseNumber(cols[1]);
            var inst := ParseNumber(cols[5]);
            var frg := ParseNumber(cols[6]);
            if close.None? || inst.None? || frg.None? then Skip
            else Keep(TradingRow(parsed, close.value, inst.value, frg.value))
  }

  /** The row loop's decision for the given cutoff, as a function value. */
  function Classifier(cutoff: Cutoff): Row -> RowOutcome {
    cols => ClassifyRow(cols, cutoff)
  }

  /** What the row loop decides for each row of a page, in order. */
  function Outcomes(rows: seq<Row>, classify: Row -> RowOutcome): (os: seq<RowOutcome>)
    ensures |os| == |rows|
  {
    seq(|rows|, i requires 0 <= i < |rows| => classify(rows[i]))
  }

  /** The rows kept from one page before the first older row, and whether there was one. */
  datatype Scan = Scan(kept: seq<TradingRow>, older: bool)

  function ScanRows(os: seq<RowOutcome>): Scan {
    if os == [] then Scan([], false)
    else match os[0]
      case Older => Scan([], true)
      case Skip => ScanRows(os[1..])
      case Keep(r) =>
        var s := ScanRows(os[1..]);
        Scan([r] + s.kept, s.older)
  }

  /**
   * The data rows of a response (`tables[1]` without its two header rows), or `None` when the
   * page loop breaks: a failed request, a status other than 200 or fewer than two tables.
   */
  function PageRows(resp: Response): Option<seq<Row>> {
    match resp
    case RequestFailed => None
    case Page(status, tables) =>
      if status != 200 || |tables| < 2 then None
      else Some(if |tables[1]| <= 2 then [] else tables[1][2..])
  }

  /**
   * The rows the crawl returns from page `i + 1` on, for a given row decision: a page that
   * breaks the loop contributes nothing further, an older row ends the crawl with the rows kept
   * before it, and a page with no kept row ends it too.
   */
  function CrawlFrom(site: seq<Response>, i: nat, classify: Row -> RowOutcome): seq<TradingRow>
    decreases |site| - i
  {
    if i >= |site| then []
    else match PageRows(site[i])
      case None => []
      case Some(rows) =>
        var s := ScanRows(Outcomes(rows, classify));
        if s.older then s.kept
        else if s.kept == [] then []
        else s.kept + CrawlFrom(site, i + 1, classify)
  }

  /** What `crawl_trading_data` returns for a site and a cutoff. */
  function Crawl(site: seq<Response>, cutoff: Cutoff): seq<TradingRow> {
    CrawlFrom(site, 0, Classifier(cutoff))
  }

  /** One step of the row loop: the scan of `os[i..]` in terms of `os[i]` and `os[i + 1..]`. */
  lemma ScanStep(os: seq<RowOutcome>, i: nat)
    requires i < |os|
    ensures ScanRows(os[i..]) == match os[i]
      case Older => Scan([], true)
      case Skip => ScanRows(os[i + 1..])
      case Keep(r) => Scan([r] + ScanRows(os[i + 1..]).kept, ScanRows(os[i + 1..]).older)
  {
    assert os[i..][0] == os[i];
    assert os[i..][1..] == os[i + 1..];
  }

  /** One step of the page loop: the crawl from a page the loop reads. */
  lemma CrawlStep(site: seq<Response>, i: nat, classify: Row -> RowOutcome, rows: seq<Row>)
    requires i < |site| && PageRows(site[i]) == Some(rows)
    ensures var s := ScanRows(Outcomes(rows, classify));
      CrawlFrom(site, i, classify) ==
        if s.older then s.kept else if s.kept == [] then [] else s.kept + CrawlFrom(site, i + 1, classify)
  {
  }

  /** The crawl from a page that breaks the loop, or from past the last page, is empty. */
  lemma CrawlStops(site: seq<Response>, i: nat, classify: Row -> RowOutcome)
    requires i >= |site| || PageRows(site[i]).None?
    ensures CrawlFrom(site, i, classify) == []
  {
  }

  /**
   * The row loop of `crawl_trading_data` over one page, for a given row decision: the rows it
   * appends before it stops, and whether it stopped at a row older than the cutoff (where the
   * source returns at once).
   */
  method ScanPage(rows: seq<Row>, classify: Row -> RowOutcome) returns (kept: seq<TradingRow>, older: bool)
    ensures Scan(kept, older) == ScanRows(Outcomes(rows, classify))
  {
    ghost var os := Outcomes(rows, classify);
    kept := [];
    for i := 0 to |rows|
      invariant ScanRows(os) == Scan(kept + ScanRows(os[i..]).kept, ScanRows(os[i..]).older)
    {
      ScanStep(os, i);
      match classify(rows[i])
      case Skip =>
      case Older =>
        return kept, true;
      case Keep(r) =>
        kept := kept + [r];
    }
    assert os[|rows|..] == [];
    older := false;
  }

  /** The page loop of `crawl_trading_data`, for a given row decision. */
  method CrawlPages(site: seq<Response>, classify: Row -> RowOutcome) returns (data: seq<TradingRow>)
    ensures data == CrawlFrom(site, 0, classify)
  {
    data := [];
    var page := 1;
    while true
      invariant 1 <= page <= |site| + 1
      invariant data + CrawlFrom(site, page - 1, classify) == CrawlFrom(site, 0, classify)
      decreases |site| + 1 - page
    {
      var response := if page <= |site| then site[page - 1] else RequestFailed;
      if response.RequestFailed? || response.status != 200 || |response.tables| < 2 {
        CrawlStops(site, page - 1, classify);
        break;
      }
      var table := response.tables[1];
      var rows := if |table| <= 2 then [] else table[2..];
      CrawlStep(site, page - 1, classify, rows);
      var pageData, older := ScanPage(rows, classify);
      data := data + pageData;
      if older {
        return;
      }
      if pageData == [] {
        break;
      }
      page := page + 1;
    }
  }

  /** `crawl_trading_data`: the page loop with `ClassifyRow` deciding each row. */
  method CrawlTradingData(site: seq<Response>, cutoff: Cutoff) returns (data: seq<TradingRow>)
    ensures data == Crawl(site, cutoff)
  {
    data := CrawlPages(site, Classifier(cutoff));
  }

  /** The date `parse_date` reads from a cell, before it is written back in ISO form. */
  function CellDate(cell: string): Option<Date> {
    Strptime(Strip(cell), '.')
  }

  /** A kept row carries an ISO date that reads back as a date not older than the cutoff. */
  predicate GoodRow(r: TradingRow, cutoff: Cutoff) {
    var d := Strptime(r.tradeDate, '-');
    d.Some? && r.tradeDate == FormatIso(d.value) && !OlderThan(d.value, cutoff)
  }

  /**
   * The row filter, stated on the parsers: a row is kept exactly when it has more than six
   * cells, its first cell reads as a calendar date no older than the cutoff and the three
   * number cells parse; it stops the crawl exactly when its date is older. The blank-cell test
   * is implied by the date test.
   */
  lemma RowFilter(cols: Row, cutoff: Cutoff)
    ensures ClassifyRow(cols, cutoff).Keep? <==>
      |cols| > 6 && CellDate(cols[0]).Some? && !OlderThan(CellDate(cols[0]).value, cutoff)
      && ParseNumber(cols[1]).Some? && ParseNumber(cols[5]).Some? && ParseNumber(cols[6]).Some?
    ensures ClassifyRow(cols, cutoff) == Older <==>
      |cols| > 6 && CellDate(cols[0]).Some? && OlderThan(CellDate(cols[0]).value, cutoff)
    ensures ClassifyRow(cols, cutoff).Keep? ==> GoodRow(ClassifyRow(cols, cutoff).row, cutoff)
  {
    if |cols| > 6 {
      var dateStr := Strip(cols[0]);
      StripIdempotent(cols[0]);
      if dateStr == [] {
        assert CellDate(cols[0]).None?;
      } else if ParseDate(dateStr).Some? {
        ParseDateOutput(dateStr);
      }
    }
  }

  /** Every row `classify` keeps satisfies `p`. */
  ghost predicate KeepsOnly(classify: Row -> RowOutcome, p: TradingRow -> bool) {
    forall cols: Row :: classify(cols).Keep? ==> p(classify(cols).row)
  }

  lemma {:induction false} ScanKeepsOnly(os: seq<RowOutcome>, p: TradingRow -> bool)
    requires forall o | o in os && o.Keep? :: p(o.row)
    ensures forall r | r in ScanRows(os).kept :: p(r)
  {
    if os != [] {
      assert os[0] in os;
      ScanKeepsOnly(os[1..], p);
    }
  }

  /** The crawl returns only rows its row decision keeps. */
  lemma {:induction false} CrawlFromKeepsOnly(site: seq<Response>, i: nat, classify: Row -> RowOutcome, p: TradingRow -> bool)
    requires KeepsOnly(classify, p)
    ensures forall r | r in CrawlFrom(site, i, classify) :: p(r)
    decreases |site| - i
  {
    if i < |site| && PageRows(site[i]).Some? {
      var os := Outcomes(PageRows(site[i]).value, classify);
      assert forall o | o in os && o.Keep? :: p(o.row);
      ScanKeepsOnly(os, p);
      CrawlFromKeepsOnly(site, i + 1, classify, p);
    }
  }

  /** A row whose date the trading service's validator accepts. */
  predicate IsoDated(r: TradingRow) {
    TradingService.ValidateDateFormat(r.tradeDate)
  }

  /** The row filter keeps only rows no older than the cutoff whose dates pass the validator. */
  lemma ClassifierKeepsRecentRows(cutoff: Cutoff)
    ensures KeepsOnly(Classifier(cutoff), r => GoodRow(r, cutoff))
    ensures KeepsOnly(Classifier(cutoff), IsoDated)
  {
    forall cols: Row
      ensures Classifier(cutoff)(cols).Keep? ==> GoodRow(Classifier(cutoff)(cols).row, cutoff)
      ensures Classifier(cutoff)(cols).Keep? ==> IsoDated(Classifier(cutoff)(cols).row)
    {
      RowFilter(cols, cutoff);
      if Classifier(cutoff)(cols).Keep? {
        TradingService.IsoDatesPass(Strptime(Classifier(cutoff)(cols).row.tradeDate, '-').value);
      }
    }
  }

  /**
   * Every returned row is dated on or after the cutoff, in zero-padded ISO form, so it passes
   * the trading service's date validator.
   */
  lemma CrawlRowsAreRecent(site: seq<Response>, cutoff: Cutoff)
    ensures forall r | r in Crawl(site, cutoff) :: GoodRow(r, cutoff) && IsoDated(r)
  {
    ClassifierKeepsRecentRows(cutoff);
    CrawlFromKeepsOnly(site, 0, Classifier(cutoff), r => GoodRow(r, cutoff));
    CrawlFromKeepsOnly(site, 0, Classifier(cutoff), IsoDated);
  }

  /** The index of the first row older than the cutoff, or the number of rows. */
  function FirstOlder(os: seq<RowOutcome>): (k: nat)
    ensures k <= |os|
    ensures forall j | 0 <= j < k :: os[j] != Older
    ensures k < |os| ==> os[k] == Older
  {
    if os == [] || os[0] == Older then 0
    else 1 + FirstOlder(os[1..])
  }

  /** The kept rows of a run of rows, in order, built from the back: an independent reading. */
  function KeptRows(os: seq<RowOutcome>): seq<TradingRow> {
    if os == [] then []
    else
      var last := os[|os| - 1];
      KeptRows(os[..|os| - 1]) + (if last.Keep? then [last.row] else [])
  }

  lemma {:induction false} KeptRowsCons(os: seq<RowOutcome>)
    requires os != []
    ensures KeptRows(os) == (if os[0].Keep? then [os[0].row] else []) + KeptRows(os[1..])
    decreases |os|
  {
    if |os| > 1 {
      var init := os[..|os| - 1];
      assert init[0] == os[0];
      assert init[1..] == os[1..][..|os[1..]| - 1];
      KeptRowsCons(init);
    } else {
      assert os[..0] == [] && os[1..] == [];
    }
  }

  /**
   * Within a page the crawl keeps exactly the accepted rows before the first older row, in
   * reading order, and it reports the older row when there is one.
   */
  lemma {:induction false} ScanIsKeptPrefix(os: seq<RowOutcome>)
    ensures var k := FirstOlder(os); ScanRows(os) == Scan(KeptRows(os[..k]), k < |os|)
  {
    if os != [] {
      var k := FirstOlder(os);
      if os[0] == Older {
        assert os[..k] == [];
      } else {
        ScanIsKeptPrefix(os[1..]);
        assert os[..k][1..] == os[1..][..k - 1];
        assert os[..k][0] == os[0];
        KeptRowsCons(os[..k]);
      }
    }
  }

  /** Pages that the loop never reaches do not matter: the crawl over a shorter site agrees. */
  lemma {:induction false} CrawlFromBeforeBreak(site: seq<Response>, k: nat, i: nat, classify: Row -> RowOutcome)
    requires i <= k < |site| && PageRows(site[k]).None?
    ensures CrawlFrom(site, i, classify) == CrawlFrom(site[..k], i, classify)
    decreases k - i
  {
    if i < k {
      assert site[..k][i] == site[i];
      CrawlFromBeforeBreak(site, k, i + 1, classify);
    }
  }

  /**
   * A page that breaks the loop (failed request, bad status, missing table) ends the crawl:
   * the rows from the pages before it are returned and no later page is read.
   */
  lemma BrokenPageEndsCrawl(site: seq<Response>, k: nat, cutoff: Cutoff)
    requires k < |site| && PageRows(site[k]).None?
    ensures Crawl(site, cutoff) == Crawl(site[..k], cutoff)
  {
    CrawlFromBeforeBreak(site, k, 0, Classifier(cutoff));
  }

  lemma {:induction false} CrawlFromPrefix(site: seq<Response>, k: nat, i: nat, classify: Row -> RowOutcome)
    requires k <= |site|
    ensures CrawlFrom(site[..k], i, classify) <= CrawlFrom(site, i, classify)
    decreases |site| - i
  {
    if i < k {
      assert site[..k][i] == site[i];
      CrawlFromPrefix(site, k, i + 1, classify);
    }
  }

  /** Reading more pages only adds rows at the end: page order is output order. */
  lemma CrawlGrowsAtEnd(site: seq<Response>, k: nat, cutoff: Cutoff)
    requires k <= |site|
    ensures Crawl(site[..k], cutoff) <= Crawl(site, cutoff)
  {
    CrawlFromPrefix(site, k, 0, Classifier(cutoff));
  }

  /** No de-duplication: the same accepted row on two pages is returned twice. */
  lemma CrawlKeepsRepeats(cols: Row, header: Row, classify: Row -> RowOutcome)
    requires classify(cols).Keep?
    ensures var p := Page(200, [[], [header, header, cols]]);
      CrawlFrom([p, p], 0, classify) == [classify(cols).row, classify(cols).row]
  {
    var p := Page(200, [[], [header, header, cols]]);
    var t: Table := [header, header, cols];
    assert t[2..] == [cols];
    assert PageRows(p) == Some([cols]);
    var os := Outcomes([cols], classify);
    assert os == [classify(cols)];
    assert ScanRows(os) == Scan([classify(cols).row], false);
    CrawlStep([p, p], 1, classify, [cols]);
    CrawlStep([p, p], 0, classify, [cols]);
  }

  /** The optional columns the save loop passes for one crawled row. */
  function RowExtras(r: TradingRow): TradingExtras {
    NoExtras.(closePrice := Some(r.closePrice), institutionNetBuy := Some(r.institutionNetBuy),
              foreignerNetBuy := Some(r.foreignerNetBuy))
  }

  /** The record stored for a crawled row, before it gets its id. */
  function SavedRecord(code: string, name: string, r: TradingRow): TradingFields {
    NewTrading(Strip(code), Strip(name), r.tradeDate, RowExtras(r))
  }

  /** Whether the trading service's checks accept a crawled row for this instrument. */
  predicate Storable(code: string, name: string, r: TradingRow) {
    TradingService.CheckNewRecord(code, name, r.tradeDate, RowExtras(r)).None?
  }

  /** The instrument's code and name pass the trading service's checks. */
  predicate CodeAndNameAccepted(code: string, name: string) {
    && Strip(code) != [] && TradingService.ValidateStockCode(Strip(code))
    && Strip(name) != [] && TradingService.ValidateStockName(name)
  }

  /** A `DDDD-DD-DD` text has no surrounding space. */
  lemma DateShapeIsStripped(s: string)
    requires Patterns.IsDateShape(s)
    ensures Strip(s) == s
  {
    assert s[..4][0] == s[0] && s[8..][1] == s[9];
    StripNoSpaceEnds(s);
  }

  /**
   * A crawled row is accepted exactly when the instrument's code and name are and its close
   * price is not negative; an accepted row is stored as `SavedRecord`.
   */
  lemma CrawledRowCheck(code: string, name: string, r: TradingRow)
    requires TradingService.ValidateDateFormat(r.tradeDate)
    ensures Storable(code, name, r) <==> CodeAndNameAccepted(code, name) && r.closePrice >= 0
    ensures Storable(code, name, r) ==>
      TradingService.CreateTradingDataBatch(code, name, r.tradeDate, RowExtras(r)) == Ok(SavedRecord(code, name, r))
  {
    TradingService.DateFormatRule(r.tradeDate);
    DateShapeIsStripped(r.tradeDate);
  }

  /** A crawled row that the trading service accepts for this instrument (see `CrawledRowCheck`). */
  predicate Accepted(code: string, name: string, r: TradingRow) {
    CodeAndNameAccepted(code, name) && r.closePrice >= 0
  }

  /** Growing a table by new ids keeps every key it held. */
  lemma KeyKept(s: map<int, TradingFields>, t: map<int, TradingFields>, code: string, date: string)
    requires forall id | id in s :: id in t && t[id] == s[id]
    requires KeyIn(s, code, date)
    ensures KeyIn(t, code, date)
  {
    var id :| id in s && s[id].stockCode == code && s[id].tradeDate == date;
    assert t[id] == s[id];
  }

  /** The stored rows of a table and the id the next insert gets. */
  datatype Store<T> = Store(records: map<int, T>, nextId: int)

  /** Every stored id is below the next one, as in `Valid()`. */
  predicate IdsBelow<T>(st: Store<T>) {
    forall id | id in st.records :: id < st.nextId
  }

  /** What the save loop does with one crawled row: insert it when it is accepted and its date is new. */
  function SaveOne(st: Store<TradingFields>, code: string, name: string, r: TradingRow): Store<TradingFields> {
    if Accepted(code, name, r) && !KeyIn(st.records, Strip(code), r.tradeDate) then
      Store(st.records[st.nextId := SavedRecord(code, name, r).(id := Some(st.nextId))], st.nextId + 1)
    else st
  }

  /** What the save loop does with all crawled rows, in order. */
  function SaveAll(st: Store<TradingFields>, code: string, name: string, rows: seq<TradingRow>): Store<TradingFields>
    decreases |rows|
  {
    if rows == [] then st else SaveAll(SaveOne(st, code, name, rows[0]), code, name, rows[1..])
  }

  lemma SaveAllStep(st: Store<TradingFields>, code: string, name: string, rows: seq<TradingRow>, i: nat)
    requires i < |rows|
    ensures SaveAll(st, code, name, rows[i..]) == SaveAll(SaveOne(st, code, name, rows[i]), code, name, rows[i + 1..])
  {
    assert rows[i..][0] == rows[i];
    assert rows[i..][1..] == rows[i + 1..];
  }

  /**
   * Saving only adds: every stored record stays as it was, at most one record per row is added,
   * and the added ones take the consecutive ids from `nextId` on.
   */
  lemma {:induction false} SaveAllOnlyAdds(st: Store<TradingFields>, code: string, name: string, rows: seq<TradingRow>)
    requires IdsBelow(st)
    ensures var res := SaveAll(st, code, name, rows);
      && IdsBelow(res) && st.nextId <= res.nextId <= st.nextId + |rows|
      && (forall id | id in st.records :: id in res.records && res.records[id] == st.records[id])
      && (forall id | st.nextId <= id < res.nextId :: id in res.records)
      && (forall id | id in res.records && id !in st.records :: st.nextId <= id < res.nextId)
    decreases |rows|
  {
    if rows != [] {
      SaveAllOnlyAdds(SaveOne(st, code, name, rows[0]), code, name, rows[1..]);
    }
  }

  /** Every record the save loop adds is the saved form of an accepted crawled row. */
  lemma {:induction false} SaveAllAddsAcceptedRows(st: Store<TradingFields>, code: string, name: string, rows: seq<TradingRow>)
    requires IdsBelow(st)
    ensures var res := SaveAll(st, code, name, rows);
      forall id | id in res.records && id !in st.records ::
        exists r | r in rows :: Accepted(code, name, r) && res.records[id] == SavedRecord(code, name, r).(id := Some(id))
    decreases |rows|
  {
    if rows != [] {
      var next := SaveOne(st, code, name, rows[0]);
      SaveAllAddsAcceptedRows(next, code, name, rows[1..]);
      SaveAllOnlyAdds(next, code, name, rows[1..]);
      var res := SaveAll(st, code, name, rows);
      forall id | id in res.records && id !in st.records
        ensures exists r | r in rows :: Accepted(code, name, r) && res.records[id] == SavedRecord(code, name, r).(id := Some(id))
      {
        if id in next.records {
          assert rows[0] in rows && res.records[id] == next.records[id];
        } else {
          var r :| r in rows[1..] && Accepted(code, name, r) && res.records[id] == SavedRecord(code, name, r).(id := Some(id));
          assert r in rows;
        }
      }
    }
  }

  /** After the save loop every accepted crawled row has its (code, date) key stored. */
  lemma {:induction false} SaveAllStoresAcceptedRows(st: Store<TradingFields>, code: string, name: string, rows: seq<TradingRow>)
    requires IdsBelow(st)
    ensures var res := SaveAll(st, code, name, rows);
      forall r | r in rows && Accepted(code, name, r) :: KeyIn(res.records, Strip(code), r.tradeDate)
    decreases |rows|
  {
    if rows != [] {
      var next := SaveOne(st, code, name, rows[0]);
      var res := SaveAll(st, code, name, rows);
      SaveAllStoresAcceptedRows(next, code, name, rows[1..]);
      SaveAllOnlyAdds(next, code, name, rows[1..]);
      if Accepted(code, name, rows[0]) {
        if !KeyIn(st.records, Strip(code), rows[0].tradeDate) {
          assert next.records[st.nextId].stockCode == Strip(code);
        } else {
          KeyKept(st.records, next.records, Strip(code), rows[0].tradeDate);
        }
        KeyKept(next.records, res.records, Strip(code), rows[0].tradeDate);
      }
      assert forall r | r in rows :: r == rows[0] || r in rows[1..];
    }
  }

  /** The save loop never stores two records with the same (code, date) key. */
  lemma {:induction false} SaveAllKeepsKeysUnique(st: Store<TradingFields>, code: string, name: string, rows: seq<TradingRow>)
    requires IdsBelow(st) && TradingService.KeysUnique(st.records)
    ensures TradingService.KeysUnique(SaveAll(st, code, name, rows).records)
    decreases |rows|
  {
    if rows != [] {
      var next := SaveOne(st, code, name, rows[0]);
      if next != st {
        TradingService.InsertKeepsKeysUnique(st.records, st.nextId, SavedRecord(code, name, rows[0]).(id := Some(st.nextId)));
      }
      SaveAllKeepsKeysUnique(next, code, name, rows[1..]);
    }
  }

  /** Crawled rows saved by the loop are well-formed records. */
  lemma {:induction false} SaveAllKeepsWellFormed(st: Store<TradingFields>, code: string, name: string, rows: seq<TradingRow>)
    requires forall r | r in rows :: IsoDated(r)
    requires TradingService.AllWellFormed(st.records)
    ensures TradingService.AllWellFormed(SaveAll(st, code, name, rows).records)
    decreases |rows|
  {
    if rows != [] {
      var r := rows[0];
      var next := SaveOne(st, code, name, r);
      if next != st {
        assert r in rows;
        CrawledRowCheck(code, name, r);
        TradingService.CheckedRecordIsWellFormed(code, name, r.tradeDate, RowExtras(r));
      }
      assert forall x | x in rows[1..] :: x in rows;
      SaveAllKeepsWellFormed(next, code, name, rows[1..]);
    }
  }

  /**
   * The save loop reports success exactly when some crawled row is accepted and its date was
   * not yet stored for the instrument.
   */
  lemma {:induction false} SaveAllSucceedsIffNewRow(st: Store<TradingFields>, code: string, name: string, rows: seq<TradingRow>)
    requires IdsBelow(st)
    ensures SaveAll(st, code, name, rows).nextId > st.nextId <==>
      exists r | r in rows :: Accepted(code, name, r) && !KeyIn(st.records, Strip(code), r.tradeDate)
    decreases |rows|
  {
    if rows != [] {
      var next := SaveOne(st, code, name, rows[0]);
      SaveAllOnlyAdds(next, code, name, rows[1..]);
      if next == st {
        SaveAllSucceedsIffNewRow(st, code, name, rows[1..]);
        assert forall r | r in rows :: r == rows[0] || r in rows[1..];
      } else {
        assert rows[0] in rows;
      }
    }
  }

  /**
   * The body of the save loop for one crawled row: skip a date already stored for the
   * instrument, otherwise ask the trading service to create the record. A record is created
   * exactly when the row is accepted and its date is new.
   */
  method SaveRow(db: TradingTable, code: string, name: string, row: TradingRow) returns (created: bool)
    requires db.Valid() && IsoDated(row)
    modifies db
    ensures db.Valid()
    ensures created <==> Accepted(code, name, row) && !KeyIn(old(db.Snapshot()), Strip(code), row.tradeDate)
    ensures Store(db.Snapshot(), db.nextId) == SaveOne(Store(old(db.Snapshot()), old(db.nextId)), code, name, row)
  {
    CrawledRowCheck(code, name, row);
    TradingService.DateFormatRule(row.tradeDate);
    DateShapeIsStripped(row.tradeDate);
    var existingDates := TradingService.StoredDates(db, code);
    if row.tradeDate in existingDates {
      return false;
    }
    var tradingRecord := TradingService.CreateTradingData(db, code, name, row.tradeDate, RowExtras(row));
    created := tradingRecord.Ok?;
  }

  /** The save loop of `collect_and_save_trading_data`: each crawled row in turn, counting the records created. */
  method SaveRows(db: TradingTable, code: string, name: string, rows: seq<TradingRow>) returns (successCount: nat)
    requires db.Valid()
    requires forall r | r in rows :: IsoDated(r)
    modifies db
    ensures db.Valid()
    ensures Store(db.Snapshot(), db.nextId) == SaveAll(Store(old(db.Snapshot()), old(db.nextId)), code, name, rows)
    ensures db.nextId == old(db.nextId) + successCount
  {
    successCount := 0;
    for i := 0 to |rows|
      invariant db.Valid()
      invariant db.nextId == old(db.nextId) + successCount
      invariant SaveAll(Store(db.Snapshot(), db.nextId), code, name, rows[i..])
        == SaveAll(Store(old(db.Snapshot()), old(db.nextId)), code, name, rows)
    {
      SaveAllStep(Store(db.Snapshot(), db.nextId), code, name, rows, i);
      var created := SaveRow(db, code, name, rows[i]);
      if created {
        successCount := successCount + 1;
      }
    }
    assert rows[|rows|..] == [];
  }

  /**
   * `collect_and_save_trading_data` with the row decision as a parameter: crawl, then save the
   * rows. The table becomes `SaveAll` of the crawl, and the result is whether at least one
   * record was created; nothing crawled means `False` and nothing stored.
   */
  method CollectAndSaveFrom(db: TradingTable, code: string, name: string, site: seq<Response>, classify: Row -> RowOutcome)
    returns (ok: bool)
    requires db.Valid() && KeepsOnly(classify, IsoDated)
    modifies db
    ensures db.Valid()
    ensures Store(db.Snapshot(), db.nextId) == SaveAll(Store(old(db.Snapshot()), old(db.nextId)), code, name, CrawlFrom(site, 0, classify))
    ensures ok <==> db.nextId > old(db.nextId)
  {
    ghost var st0 := Store(db.Snapshot(), db.nextId);
    var tradingData := CrawlPages(site, classify);
    assert Store(db.Snapshot(), db.nextId) == st0;
    if tradingData == [] {
      assert SaveAll(st0, code, name, tradingData) == st0;
      return false;
    }
    CrawlFromKeepsOnly(site, 0, classify, IsoDated);
    var successCount := SaveRows(db, code, name, tradingData);
    ok := successCount > 0;
  }

  /** `collect_and_save_trading_data`: `CollectAndSaveFrom` with `ClassifyRow` deciding each row. */
  method CollectAndSaveTradingData(db: TradingTable, code: string, name: string, site: seq<Response>, cutoff: Cutoff)
    returns (ok: bool)
    requires db.Valid()
    modifies db
    ensures db.Valid()
    ensures Store(db.Snapshot(), db.nextId) == SaveAll(Store(old(db.Snapshot()), old(db.nextId)), code, name, Crawl(site, cutoff))
    ensures ok <==> db.nextId > old(db.nextId)
  {
    ClassifierKeepsRecentRows(cutoff);
    ok := CollectAndSaveFrom(db, code, name, site, Classifier(cutoff));
  }

  /** One entry of the built-in list of large-cap instruments. */
  datatype StockInfo = StockInfo(code: string, name: string)

  /** `DEFAULT_STOCK_LIST`: fifty instruments, each a six-digit code and a name, in blocks of five. */
  const DEFAULT_STOCK_LIST: seq<StockInfo> :=
    DEFAULT_STOCK_LIST_1 + DEFAULT_STOCK_LIST_2 + DEFAULT_STOCK_LIST_3 + DEFAULT_STOCK_LIST_4 + DEFAULT_STOCK_LIST_5
    + DEFAULT_STOCK_LIST_6 + DEFAULT_STOCK_LIST_7 + DEFAULT_STOCK_LIST_8 + DEFAULT_STOCK_LIST_9 + DEFAULT_STOCK_LIST_10

  const DEFAULT_STOCK_LIST_1: seq<StockInfo> := [
    StockInfo("005930", "삼성전자"),
    StockInfo("000660", "SK하이닉스"),
    StockInfo("207940", "삼성바이오로직스"),
    StockInfo("373220", "LG에너지솔루션"),
    StockInfo("005380", "현대차")
  ]

  const DEFAULT_STOCK_LIST_2: seq<StockInfo> := [
    StockInfo("068270", "셀트리온"),
    StockInfo("000270", "기아"),
    StockInfo("035420", "NAVER"),
    StockInfo("105560", "KB금융"),
    StockInfo("012450", "한화에어로스페이스")
  ]

  const DEFAULT_STOCK_LIST_3: seq<StockInfo> := [
    StockInfo("005490", "POSCO홀딩스"),
    StockInfo("329180", "HD현대중공업"),
    StockInfo("012330", "현대모비스"),
    StockInfo("055550", "신한지주"),
    StockInfo("042660", "한화오션")
  ]

  const DEFAULT_STOCK_LIST_4: seq<StockInfo> := [
    StockInfo("138040", "메리츠금융지주"),
    StockInfo("028260", "삼성물산"),
    StockInfo("035720", "카카오"),
    StockInfo("096770", "SK이노베이션"),
    StockInfo("000810", "삼성화재")
  ]

  const DEFAULT_STOCK_LIST_5: seq<StockInfo> := [
    StockInfo("051910", "LG화학"),
    StockInfo("086790", "하나금융지주"),
    StockInfo("010130", "고려아연"),
    StockInfo("011200", "HMM"),
    StockInfo("034020", "두산에너빌리티")
  ]

  const DEFAULT_STOCK_LIST_6: seq<StockInfo> := [
    StockInfo("032830", "삼성생명"),
    StockInfo("259960", "크래프톤"),
    StockInfo("009540", "HD한국조선해양"),
    StockInfo("015760", "한국전력"),
    StockInfo("006400", "삼성SDI")
  ]

  const DEFAULT_STOCK_LIST_7: seq<StockInfo> := [
    StockInfo("066570", "LG전자"),
    StockInfo("402340", "SK스퀘어"),
    StockInfo("010140", "삼성중공업"),
    StockInfo("030200", "KT"),
    StockInfo("024110", "기업은행")
  ]

  const DEFAULT_STOCK_LIST_8: seq<StockInfo> := [
    StockInfo("316140", "우리금융지주"),
    StockInfo("033780", "KT&G"),
    StockInfo("004990", "롯데지주"),
    StockInfo("017670", "SK텔레콤"),
    StockInfo("267260", "HD현대일렉트릭")
  ]

  const DEFAULT_STOCK_LIST_9: seq<StockInfo> := [
    StockInfo("003550", "LG"),
    StockInfo("323410", "카카오뱅크"),
    StockInfo("003670", "포스코퓨처엠"),
    StockInfo("047050", "포스코인터내셔널"),
    StockInfo("009150", "삼성전기")
  ]

  const DEFAULT_STOCK_LIST_10: seq<StockInfo> := [
    StockInfo("034730", "SK"),
    StockInfo("000100", "유한양행"),
    StockInfo("352820", "하이브"),
    StockInfo("018260", "삼성에스디에스"),
    StockInfo("086280", "현대글로비스")
  ]

  /** Whether the stock service's checks accept an entry with no init date and zero accum-inits. */
  predicate Seedable(info: StockInfo) {
    StockService.CheckNewStock(info.code, info.name, None, 0, 0).None?
  }

  /** Some stored instrument has this code. */
  predicate CodeIn(s: map<int, StockFields>, code: string) {
    exists id | id in s :: s[id].stockCode == code
  }

  /** What the seeding loop does with one entry: create it when it is accepted and its code is new. */
  function SeedOne(st: Store<StockFields>, info: StockInfo): Store<StockFields> {
    if Seedable(info) && !CodeIn(st.records, Strip(info.code)) then
      Store(st.records[st.nextId := StockService.NewStockOf(info.code, info.name, None, 0, 0).(id := Some(st.nextId))], st.nextId + 1)
    else st
  }

  /** What the seeding loop does with a whole list, in order. */
  function SeedAll(st: Store<StockFields>, list: seq<StockInfo>): Store<StockFields>
    decreases |list|
  {
    if list == [] then st else SeedAll(SeedOne(st, list[0]), list[1..])
  }

  lemma SeedAllStep(st: Store<StockFields>, list: seq<StockInfo>, i: nat)
    requires i < |list|
    ensures SeedAll(st, list[i..]) == SeedAll(SeedOne(st, list[i]), list[i + 1..])
  {
    assert list[i..][0] == list[i];
    assert list[i..][1..] == list[i + 1..];
  }

  /** Seeding only adds: every stored instrument stays as it was. */
  lemma {:induction false} SeedAllOnlyAdds(st: Store<StockFields>, list: seq<StockInfo>)
    requires IdsBelow(st)
    ensures var res := SeedAll(st, list);
      && IdsBelow(res) && st.nextId <= res.nextId <= st.nextId + |list|
      && (forall id | id in st.records :: id in res.records && res.records[id] == st.records[id])
    decreases |list|
  {
    if list != [] {
      SeedAllOnlyAdds(SeedOne(st, list[0]), list[1..]);
    }
  }

  /** Every instrument the seeding adds is an accepted entry of the list, stripped. */
  lemma {:induction false} SeedAllAddsListed(st: Store<StockFields>, list: seq<StockInfo>)
    requires IdsBelow(st)
    ensures var res := SeedAll(st, list);
      forall id | id in res.records && id !in st.records ::
        exists info | info in list ::
          Seedable(info) && res.records[id] == StockService.NewStockOf(info.code, info.name, None, 0, 0).(id := Some(id))
    decreases |list|
  {
    if list != [] {
      var next := SeedOne(st, list[0]);
      SeedAllAddsListed(next, list[1..]);
      SeedAllOnlyAdds(next, list[1..]);
      var res := SeedAll(st, list);
      forall id | id in res.records && id !in st.records
        ensures exists info | info in list ::
          Seedable(info) && res.records[id] == StockService.NewStockOf(info.code, info.name, None, 0, 0).(id := Some(id))
      {
        if id in next.records {
          assert list[0] in list && res.records[id] == next.records[id];
        } else {
          var info :| info in list[1..] && Seedable(info)
            && res.records[id] == StockService.NewStockOf(info.code, info.name, None, 0, 0).(id := Some(id));
          assert info in list;
        }
      }
    }
  }

  lemma CodeKept(s: map<int, StockFields>, t: map<int, StockFields>, code: string)
    requires forall id | id in s :: id in t && t[id] == s[id]
    requires CodeIn(s, code)
    ensures CodeIn(t, code)
  {
    var id :| id in s && s[id].stockCode == code;
    assert t[id] == s[id];
  }

  /** After seeding, every accepted entry's code is stored (new or already there). */
  lemma {:induction false} SeedAllStoresSeedable(st: Store<StockFields>, list: seq<StockInfo>)
    requires IdsBelow(st)
    ensures forall info | info in list && Seedable(info) :: CodeIn(SeedAll(st, list).records, Strip(info.code))
    decreases |list|
  {
    if list != [] {
      var next := SeedOne(st, list[0]);
      var res := SeedAll(st, list);
      SeedAllStoresSeedable(next, list[1..]);
      SeedAllOnlyAdds(next, list[1..]);
      if Seedable(list[0]) {
        if !CodeIn(st.records, Strip(list[0].code)) {
          assert next.records[st.nextId].stockCode == Strip(list[0].code);
        } else {
          CodeKept(st.records, next.records, Strip(list[0].code));
        }
        CodeKept(next.records, res.records, Strip(list[0].code));
      }
      assert forall info | info in list :: info == list[0] || info in list[1..];
    }
  }

  /** Seeded instruments are well-formed. */
  lemma {:induction false} SeedAllKeepsWellFormed(st: Store<StockFields>, list: seq<StockInfo>)
    requires StockService.AllStocksWellFormed(st.records)
    ensures StockService.AllStocksWellFormed(SeedAll(st, list).records)
    decreases |list|
  {
    if list != [] {
      var next := SeedOne(st, list[0]);
      if next != st {
        StockService.CheckedStockIsWellFormed(list[0].code, list[0].name, None, 0, 0);
      }
      SeedAllKeepsWellFormed(next, list[1..]);
    }
  }

  /** A six-digit code and a name of 1 to 100 characters with no space at either end. */
  predicate EntryShape(info: StockInfo) {
    && |info.code| == 6
    && IsAsciiDigit(info.code[0]) && IsAsciiDigit(info.code[1]) && IsAsciiDigit(info.code[2])
    && IsAsciiDigit(info.code[3]) && IsAsciiDigit(info.code[4]) && IsAsciiDigit(info.code[5])
    && 0 < |info.name| <= StockService.MAX_STOCK_NAME_LENGTH
    && !IsSpace(info.name[0]) && !IsSpace(info.name[|info.name| - 1])
  }

  predicate AllShaped(list: seq<StockInfo>) {
    forall i | 0 <= i < |list| :: EntryShape(list[i])
  }

  /** An entry of that shape passes the stock service's checks, and its code is already stripped. */
  lemma ShapedEntryIsSeedable(info: StockInfo)
    requires EntryShape(info)
    ensures Seedable(info) && Strip(info.code) == info.code
  {
    assert AllDigits(info.code);
    DigitsHaveNoSpace(info.code);
    StripNoSpaceEnds(info.name);
    TradingService.StrippedStockCodeRule(info.code);
  }

  lemma DefaultBlockShaped1()
    ensures AllShaped(DEFAULT_STOCK_LIST_1)
  {
    var list := DEFAULT_STOCK_LIST_1;
    assert EntryShape(list[0]) && EntryShape(list[1]) && EntryShape(list[2]);
    assert EntryShape(list[3]) && EntryShape(list[4]);
  }

  lemma DefaultBlockShaped2()
    ensures AllShaped(DEFAULT_STOCK_LIST_2)
  {
    var list := DEFAULT_STOCK_LIST_2;
    assert EntryShape(list[0]) && EntryShape(list[1]) && EntryShape(list[2]);
    assert EntryShape(list[3]) && EntryShape(list[4]);
  }

  lemma DefaultBlockShaped3()
    ensures AllShaped(DEFAULT_STOCK_LIST_3)
  {
    var list := DEFAULT_STOCK_LIST_3;
    assert EntryShape(list[0]) && EntryShape(list[1]) && EntryShape(list[2]);
    assert EntryShape(list[3]) && EntryShape(list[4]);
  }

  lemma DefaultBlockShaped4()
    ensures AllShaped(DEFAULT_STOCK_LIST_4)
  {
    var list := DEFAULT_STOCK_LIST_4;
    assert EntryShape(list[0]) && EntryShape(list[1]) && EntryShape(list[2]);
    assert EntryShape(list[3]) && EntryShape(list[4]);
  }

  lemma DefaultBlockShaped5()
    ensures AllShaped(DEFAULT_STOCK_LIST_5)
  {
    var list := DEFAULT_STOCK_LIST_5;
    assert EntryShape(list[0]) && EntryShape(list[1]) && EntryShape(list[2]);
    assert EntryShape(list[3]) && EntryShape(list[4]);
  }

  lemma DefaultBlockShaped6()
    ensures AllShaped(DEFAULT_STOCK_LIST_6)
  {
    var list := DEFAULT_STOCK_LIST_6;
    assert EntryShape(list[0]) && EntryShape(list[1]) && EntryShape(list[2]);
    assert EntryShape(list[3]) && EntryShape(list[4]);
  }

  lemma DefaultBlockShaped7()
    ensures AllShaped(DEFAULT_STOCK_LIST_7)
  {
    var list := DEFAULT_STOCK_LIST_7;
    assert EntryShape(list[0]) && EntryShape(list[1]) && EntryShape(list[2]);
    assert EntryShape(list[3]) && EntryShape(list[4]);
  }

  lemma DefaultBlockShaped8()
    ensures AllShaped(DEFAULT_STOCK_LIST_8)
  {
    var list := DEFAULT_STOCK_LIST_8;
    assert EntryShape(list[0]) && EntryShape(list[1]) && EntryShape(list[2]);
    assert EntryShape(list[3]) && EntryShape(list[4]);
  }

  lemma DefaultBlockShaped9()
    ensures AllShaped(DEFAULT_STOCK_LIST_9)
  {
    var list := DEFAULT_STOCK_LIST_9;
    assert EntryShape(list[0]) && EntryShape(list[1]) && EntryShape(list[2]);
    assert EntryShape(list[3]) && EntryShape(list[4]);
  }

  lemma DefaultBlockShaped10()
    ensures AllShaped(DEFAULT_STOCK_LIST_10)
  {
    var list := DEFAULT_STOCK_LIST_10;
    assert EntryShape(list[0]) && EntryShape(list[1]) && EntryShape(list[2]);
    assert EntryShape(list[3]) && EntryShape(list[4]);
  }

  lemma AllShapedAppend(a: seq<StockInfo>, b: seq<StockInfo>)
    requires AllShaped(a) && AllShaped(b)
    ensures AllShaped(a + b)
  {
    forall i | 0 <= i < |a + b| ensures EntryShape((a + b)[i]) {
      if i < |a| {
        assert (a + b)[i] == a[i];
      } else {
        assert (a + b)[i] == b[i - |a|];
      }
    }
  }

  lemma DefaultListShaped()
    ensures AllShaped(DEFAULT_STOCK_LIST)
  {
    DefaultBlockShaped1();
    DefaultBlockShaped2();
    DefaultBlockShaped3();
    DefaultBlockShaped4();
    DefaultBlockShaped5();
    DefaultBlockShaped6();
    DefaultBlockShaped7();
    DefaultBlockShaped8();
    DefaultBlockShaped9();
    DefaultBlockShaped10();
    AllShapedAppend(DEFAULT_STOCK_LIST_1, DEFAULT_STOCK_LIST_2);
    AllShapedAppend(DEFAULT_STOCK_LIST_1 + DEFAULT_STOCK_LIST_2, DEFAULT_STOCK_LIST_3);
    AllShapedAppend(DEFAULT_STOCK_LIST_1 + DEFAULT_STOCK_LIST_2 + DEFAULT_STOCK_LIST_3, DEFAULT_STOCK_LIST_4);
    AllShapedAppend(DEFAULT_STOCK_LIST_1 + DEFAULT_STOCK_LIST_2 + DEFAULT_STOCK_LIST_3 + DEFAULT_STOCK_LIST_4,
                    DEFAULT_STOCK_LIST_5);
    var half := DEFAULT_STOCK_LIST_1 + DEFAULT_STOCK_LIST_2 + DEFAULT_STOCK_LIST_3 + DEFAULT_STOCK_LIST_4
      + DEFAULT_STOCK_LIST_5;
    AllShapedAppend(half, DEFAULT_STOCK_LIST_6);
    AllShapedAppend(half + DEFAULT_STOCK_LIST_6, DEFAULT_STOCK_LIST_7);
    AllShapedAppend(half + DEFAULT_STOCK_LIST_6 + DEFAULT_STOCK_LIST_7, DEFAULT_STOCK_LIST_8);
    AllShapedAppend(half + DEFAULT_STOCK_LIST_6 + DEFAULT_STOCK_LIST_7 + DEFAULT_STOCK_LIST_8, DEFAULT_STOCK_LIST_9);
    AllShapedAppend(half + DEFAULT_STOCK_LIST_6 + DEFAULT_STOCK_LIST_7 + DEFAULT_STOCK_LIST_8 + DEFAULT_STOCK_LIST_9,
                    DEFAULT_STOCK_LIST_10);
  }

  /** Every entry of the built-in list passes the stock service's checks as it stands. */
  lemma DefaultListIsSeedable()
    ensures forall info | info in DEFAULT_STOCK_LIST :: Seedable(info) && Strip(info.code) == info.code
  {
    DefaultListShaped();
    forall info | info in DEFAULT_STOCK_LIST
      ensures Seedable(info) && Strip(info.code) == info.code
    {
      var i :| 0 <= i < |DEFAULT_STOCK_LIST| && DEFAULT_STOCK_LIST[i] == info;
      ShapedEntryIsSeedable(info);
    }
  }

  /** After `initialize_stock_list` every code of the built-in list is stored. */
  lemma DefaultCodesStored(st: Store<StockFields>)
    requires IdsBelow(st)
    ensures forall info | info in DEFAULT_STOCK_LIST :: CodeIn(SeedAll(st, DEFAULT_STOCK_LIST).records, info.code)
  {
    DefaultListIsSeedable();
    SeedAllStoresSeedable(st, DEFAULT_STOCK_LIST);
  }

  /** The body of the seeding loop for one entry: skip a stored code, otherwise create the instrument. */
  method SeedStock(sdb: StockTable, info: StockInfo) returns (created: bool)
    requires sdb.Valid()
    modifies sdb
    ensures sdb.Valid()
    ensures created <==> Seedable(info) && !CodeIn(old(sdb.Snapshot()), Strip(info.code))
    ensures Store(sdb.Snapshot(), sdb.nextId) == SeedOne(Store(old(sdb.Snapshot()), old(sdb.nextId)), info)
  {
    var existingStock := StockService.GetStockByCode(sdb, info.code);
    if existingStock.Some? {
      return false;
    }
    var stock := StockService.CreateStock(sdb, info.code, info.name, None, 0, 0);
    created := stock.Ok?;
  }

  /**
   * `initialize_stock_list`: every entry of `DEFAULT_STOCK_LIST` in turn through `SeedStock`.
   * It reports success whatever happened to the individual entries.
   */
  method InitializeStockList(sdb: StockTable) returns (ok: bool)
    requires sdb.Valid()
    modifies sdb
    ensures ok && sdb.Valid()
    ensures Store(sdb.Snapshot(), sdb.nextId) == SeedAll(Store(old(sdb.Snapshot()), old(sdb.nextId)), DEFAULT_STOCK_LIST)
  {
    var list := DEFAULT_STOCK_LIST;
    for i := 0 to |list|
      invariant sdb.Valid()
      invariant SeedAll(Store(sdb.Snapshot(), sdb.nextId), list[i..]) == SeedAll(Store(old(sdb.Snapshot()), old(sdb.nextId)), list)
    {
      SeedAllStep(Store(sdb.Snapshot(), sdb.nextId), list, i);
      var created := SeedStock(sdb, list[i]);
    }
    assert list[|list|..] == [];
    ok := true;
  }

  /** The rows crawled for one instrument, with the code and name they are saved under. */
  datatype Batch = Batch(code: string, name: string, rows: seq<TradingRow>)

  /** The stored state after a run, and for each instrument whether saving created a record. */
  datatype Round = Round(store: Store<TradingFields>, succeeded: seq<bool>)

  /** What the collection loop does with each batch in turn. */
  function SaveEach(st: Store<TradingFields>, batches: seq<Batch>): (r: Round)
    ensures |r.succeeded| == |batches|
    decreases |batches|
  {
    if batches == [] then Round(st, [])
    else
      var b := batches[0];
      var next := SaveAll(st, b.code, b.name, b.rows);
      var rest := SaveEach(next, batches[1..]);
      Round(rest.store, [next.nextId > st.nextId] + rest.succeeded)
  }

  /** A whole run only adds records: every stored record stays as it was. */
  lemma {:induction false} SaveEachOnlyAdds(st: Store<TradingFields>, batches: seq<Batch>)
    requires IdsBelow(st)
    ensures var res := SaveEach(st, batches).store;
      && IdsBelow(res) && st.nextId <= res.nextId
      && (forall id | id in st.records :: id in res.records && res.records[id] == st.records[id])
    decreases |batches|
  {
    if batches != [] {
      var b := batches[0];
      SaveAllOnlyAdds(st, b.code, b.name, b.rows);
      SaveEachOnlyAdds(SaveAll(st, b.code, b.name, b.rows), batches[1..]);
    }
  }

  /**
   * After a whole run, every accepted row of every batch has its (code, date) key stored, and
   * no two records share a key.
   */
  lemma {:induction false} SaveEachStoresAcceptedRows(st: Store<TradingFields>, batches: seq<Batch>)
    requires IdsBelow(st) && TradingService.KeysUnique(st.records)
    ensures var res := SaveEach(st, batches).store;
      && TradingService.KeysUnique(res.records)
      && forall k, r | 0 <= k < |batches| && r in batches[k].rows && Accepted(batches[k].code, batches[k].name, r) ::
           KeyIn(res.records, Strip(batches[k].code), r.tradeDate)
    decreases |batches|
  {
    if batches != [] {
      var b := batches[0];
      var next := SaveAll(st, b.code, b.name, b.rows);
      var res := SaveEach(st, batches).store;
      SaveAllOnlyAdds(st, b.code, b.name, b.rows);
      SaveAllStoresAcceptedRows(st, b.code, b.name, b.rows);
      SaveAllKeepsKeysUnique(st, b.code, b.name, b.rows);
      SaveEachStoresAcceptedRows(next, batches[1..]);
      SaveEachOnlyAdds(next, batches[1..]);
      forall k, r | 0 <= k < |batches| && r in batches[k].rows && Accepted(batches[k].code, batches[k].name, r)
        ensures KeyIn(res.records, Strip(batches[k].code), r.tradeDate)
      {
        if k == 0 {
          KeyKept(next.records, res.records, Strip(b.code), r.tradeDate);
        } else {
          assert batches[k] == batches[1..][k - 1];
        }
      }
    }
  }

  /** One step of the collection loop, seen from the whole run. */
  lemma SaveEachAdvance(before: Store<TradingFields>, batches: seq<Batch>, i: nat, run: Round)
    requires i < |batches| && |run.succeeded| == |batches|
    requires SaveEach(before, batches[i..]) == Round(run.store, run.succeeded[i..])
    ensures var next := SaveAll(before, batches[i].code, batches[i].name, batches[i].rows);
      && SaveEach(next, batches[i + 1..]) == Round(run.store, run.succeeded[i + 1..])
      && run.succeeded[i] == (next.nextId > before.nextId)
  {
    assert batches[i..][0] == batches[i];
    assert batches[i..][1..] == batches[i + 1..];
    assert run.succeeded[i..][1..] == run.succeeded[i + 1..];
  }

  /** The crawl of one listed instrument, over the site `web` serves for its code. */
  function BatchOf(stock: StockFields, web: string -> seq<Response>, classify: Row -> RowOutcome): Batch {
    Batch(stock.stockCode, stock.stockName, CrawlFrom(web(stock.stockCode), 0, classify))
  }

  /** The crawl of each listed instrument, in list order. */
  function Batches(stocks: seq<StockFields>, web: string -> seq<Response>, classify: Row -> RowOutcome): (bs: seq<Batch>)
    ensures |bs| == |stocks|
    decreases |stocks|
  {
    if stocks == [] then [] else [BatchOf(stocks[0], web, classify)] + Batches(stocks[1..], web, classify)
  }

  /** Batch `i` is the crawl of instrument `i`. */
  lemma {:induction false} BatchesAt(stocks: seq<StockFields>, web: string -> seq<Response>, classify: Row -> RowOutcome, i: nat)
    requires i < |stocks|
    ensures Batches(stocks, web, classify)[i] == BatchOf(stocks[i], web, classify)
    decreases i
  {
    if i > 0 {
      BatchesAt(stocks[1..], web, classify, i - 1);
    }
  }

  /** The number of `true` entries. */
  function CountTrue(flags: seq<bool>): (n: nat)
    ensures n <= |flags|
  {
    if flags == [] then 0 else (if flags[0] then 1 else 0) + CountTrue(flags[1..])
  }

  lemma CountTrueAppend(a: seq<bool>, b: seq<bool>)
    ensures CountTrue(a + b) == CountTrue(a) + CountTrue(b)
  {
    if a == [] {
      assert a + b == b;
    } else {
      assert (a + b)[1..] == a[1..] + b;
    }
  }

  /** `"<code> <name>"` for each instrument whose collection did not succeed, in list order. */
  function FailedLabels(stocks: seq<StockFields>, flags: seq<bool>): (labels: seq<string>)
    requires |flags| == |stocks|
    ensures |labels| == |flags| - CountTrue(flags)
  {
    if stocks == [] then []
    else (if flags[0] then [] else [stocks[0].stockCode + " " + stocks[0].stockName]) + FailedLabels(stocks[1..], flags[1..])
  }

  /** The failure labels of one more instrument: its label is added at the end when it failed. */
  lemma {:induction false} FailedLabelsSnoc(stocks: seq<StockFields>, flags: seq<bool>)
    requires 0 < |flags| == |stocks|
    ensures var j := |flags| - 1;
      FailedLabels(stocks, flags)
        == FailedLabels(stocks[..j], flags[..j])
           + (if flags[j] then [] else [stocks[j].stockCode + " " + stocks[j].stockName])
    decreases |stocks|
  {
    var j := |flags| - 1;
    if j > 0 {
      FailedLabelsSnoc(stocks[1..], flags[1..]);
      assert stocks[1..][..j - 1] == stocks[..j][1..] && flags[1..][..j - 1] == flags[..j][1..];
      assert stocks[1..][j - 1] == stocks[j] && flags[1..][j - 1] == flags[j];
    }
  }

  lemma FailedLabelsAppend(s1: seq<StockFields>, f1: seq<bool>, s2: seq<StockFields>, f2: seq<bool>)
    requires |f1| == |s1| && |f2| == |s2|
    ensures FailedLabels(s1 + s2, f1 + f2) == FailedLabels(s1, f1) + FailedLabels(s2, f2)
  {
    if s1 == [] {
      assert s1 + s2 == s2 && f1 + f2 == f2;
    } else {
      assert (s1 + s2)[1..] == s1[1..] + s2 && (f1 + f2)[1..] == f1[1..] + f2;
      FailedLabelsAppend(s1[1..], f1[1..], s2, f2);
    }
  }

  /** The statistics `collect_all_stocks_data` returns. */
  datatype CollectionResults = CollectionResults(
    totalStocks: nat, successStocks: nat, failedStocks: nat, failedList: seq<string>)

  /** The results a run reports, given the listed instruments and whether each one succeeded. */
  function ResultsOf(stocks: seq<StockFields>, flags: seq<bool>): (r: CollectionResults)
    requires |flags| == |stocks|
    ensures r.successStocks + r.failedStocks == r.totalStocks == |stocks|
    ensures |r.failedList| == r.failedStocks
  {
    CollectionResults(|stocks|, CountTrue(flags), |stocks| - CountTrue(flags), FailedLabels(stocks, flags))
  }

  /** Counting one more instrument: the success count or the failure count and list grow. */
  lemma ResultsOfSnoc(stocks: seq<StockFields>, flags: seq<bool>, stock: StockFields, success: bool)
    requires |flags| == |stocks|
    ensures var r := ResultsOf(stocks, flags);
      ResultsOf(stocks + [stock], flags + [success]) ==
        if success then r.(totalStocks := r.totalStocks + 1, successStocks := r.successStocks + 1)
        else r.(totalStocks := r.totalStocks + 1, failedStocks := r.failedStocks + 1,
                failedList := r.failedList + [stock.stockCode + " " + stock.stockName])
  {
    CountTrueAppend(flags, [success]);
    FailedLabelsAppend(stocks, flags, [stock], [success]);
    assert CountTrue([success]) == if success then 1 else 0;
  }

  /**
   * The statistics update for one more instrument: the total, and the success count or the
   * failure count and list.
   */
  method Tally(ghost stocks: seq<StockFields>, ghost flags: seq<bool>, results: CollectionResults,
               stock: StockFields, success: bool)
    returns (r: CollectionResults)
    requires |flags| == |stocks| && results == ResultsOf(stocks, flags)
    ensures r == ResultsOf(stocks + [stock], flags + [success])
  {
    ResultsOfSnoc(stocks, flags, stock, success);
    r := results.(totalStocks := results.totalStocks + 1);
    if success {
      r := r.(successStocks := r.successStocks + 1);
    } else {
      r := r.(failedStocks := r.failedStocks + 1, failedList := r.failedList + [stock.stockCode + " " + stock.stockName]);
    }
  }

  /**
   * Crawl and save the instrument at index `i`. Against the whole run `run`, the batches from
   * index `i` on still lead to the same end, and `success` is the run's flag `i`.
   */
  method SaveStock(tdb: TradingTable, stocks: seq<StockFields>, web: string -> seq<Response>, classify: Row -> RowOutcome,
                   ghost batches: seq<Batch>, ghost run: Round, i: nat)
    returns (success: bool)
    requires tdb.Valid() && KeepsOnly(classify, IsoDated)
    requires i < |stocks| && batches == Batches(stocks, web, classify) && |run.succeeded| == |stocks|
    requires SaveEach(Store(tdb.Snapshot(), tdb.nextId), batches[i..]) == Round(run.store, run.succeeded[i..])
    modifies tdb
    ensures tdb.Valid() && success == run.succeeded[i]
    ensures SaveEach(Store(tdb.Snapshot(), tdb.nextId), batches[i + 1..]) == Round(run.store, run.succeeded[i + 1..])
  {
    var stock := stocks[i];
    BatchesAt(stocks, web, classify, i);
    SaveEachAdvance(Store(tdb.Snapshot(), tdb.nextId), batches, i, run);
    success := CollectAndSaveFrom(tdb, stock.stockCode, stock.stockName, web(stock.stockCode), classify);
  }

  /** The body of step 3 for one instrument: crawl and save it, then count it. */
  method CollectOne(tdb: TradingTable, stocks: seq<StockFields>, web: string -> seq<Response>, classify: Row -> RowOutcome,
                    ghost batches: seq<Batch>, ghost run: Round, i: nat, results: CollectionResults)
    returns (success: bool, results': CollectionResults)
    requires tdb.Valid() && KeepsOnly(classify, IsoDated)
    requires i < |stocks| && batches == Batches(stocks, web, classify) && |run.succeeded| == |stocks|
    requires SaveEach(Store(tdb.Snapshot(), tdb.nextId), batches[i..]) == Round(run.store, run.succeeded[i..])
    requires results == ResultsOf(stocks[..i], run.succeeded[..i])
    modifies tdb
    ensures tdb.Valid() && success == run.succeeded[i]
    ensures SaveEach(Store(tdb.Snapshot(), tdb.nextId), batches[i + 1..]) == Round(run.store, run.succeeded[i + 1..])
    ensures results' == ResultsOf(stocks[..i + 1], run.succeeded[..i + 1])
  {
    success := SaveStock(tdb, stocks, web, classify, batches, run, i);
    ghost var saved := Store(tdb.Snapshot(), tdb.nextId);
    results' := Tally(stocks[..i], run.succeeded[..i], results, stocks[i], success);
    assert Store(tdb.Snapshot(), tdb.nextId) == saved;
    assert stocks[..i + 1] == stocks[..i] + [stocks[i]];
    assert run.succeeded[..i + 1] == run.succeeded[..i] + [success];
  }

  /**
   * The per-instrument loop of `collect_all_stocks_data`: crawl and save each listed instrument
   * in turn over the site `web` serves for its code. The trading table ends as `SaveEach` of the
   * crawls, and the statistics count, for each instrument, whether saving created a record.
   */
  method CollectEach(tdb: TradingTable, stocks: seq<StockFields>, web: string -> seq<Response>, classify: Row -> RowOutcome)
    returns (results: CollectionResults)
    requires tdb.Valid() && KeepsOnly(classify, IsoDated)
    modifies tdb
    ensures tdb.Valid()
    ensures var run := SaveEach(Store(old(tdb.Snapshot()), old(tdb.nextId)), Batches(stocks, web, classify));
      && Store(tdb.Snapshot(), tdb.nextId) == run.store
      && results == ResultsOf(stocks, run.succeeded)
  {
    ghost var batches := Batches(stocks, web, classify);
    ghost var run := SaveEach(Store(tdb.Snapshot(), tdb.nextId), batches);
    results := CollectionResults(0, 0, 0, []);
    assert batches[0..] == batches && run.succeeded[0..] == run.succeeded;
    for i := 0 to |stocks|
      invariant tdb.Valid()
      invariant SaveEach(Store(tdb.Snapshot(), tdb.nextId), batches[i..]) == Round(run.store, run.succeeded[i..])
      invariant results == ResultsOf(stocks[..i], run.succeeded[..i])
    {
      var success;
      success, results := CollectOne(tdb, stocks, web, classify, batches, run, i, results);
    }
    assert stocks[..|stocks|] == stocks && run.succeeded[..|stocks|] == run.succeeded;
    assert batches[|stocks|..] == [];
  }

  /** Steps 1 and 2 of `collect_all_stocks_data`: seed the built-in list, then list every stored instrument. */
  /**
   * `stocks` lists the stored instruments once each: each entry is stored under its id, every
   * stored id is listed, and ids strictly increase along the listing.
   */
  ghost predicate ListsAll(stocks: seq<StockFields>, stored: map<int, StockFields>) {
    && (forall k | 0 <= k < |stocks| :: stocks[k].id.Some? && stocks[k].id.value in stored && stored[stocks[k].id.value] == stocks[k])
    && (forall id | id in stored :: exists k | 0 <= k < |stocks| :: stocks[k].id == Some(id))
    && (forall a, b | 0 <= a < b < |stocks| :: stocks[a].id.value < stocks[b].id.value)
  }

  method SeedAndList(sdb: StockTable) returns (stocks: seq<StockFields>)
    requires sdb.Valid()
    modifies sdb
    ensures sdb.Valid()
    ensures Store(sdb.Snapshot(), sdb.nextId) == SeedAll(Store(old(sdb.Snapshot()), old(sdb.nextId)), DEFAULT_STOCK_LIST)
    ensures ListsAll(stocks, sdb.Snapshot())
  {
    var initialized := InitializeStockList(sdb);
    stocks := StockService.GetAllStocks(sdb);
  }

  /** `SeedAndList`, which touches no recorded trading day. */
  method SeedAndListBeside(sdb: StockTable, tdb: TradingTable) returns (stocks: seq<StockFields>)
    requires sdb.Valid() && tdb.Valid()
    modifies sdb
    ensures sdb.Valid() && tdb.Valid()
    ensures Store(sdb.Snapshot(), sdb.nextId) == SeedAll(Store(old(sdb.Snapshot()), old(sdb.nextId)), DEFAULT_STOCK_LIST)
    ensures ListsAll(stocks, sdb.Snapshot())
    ensures Store(tdb.Snapshot(), tdb.nextId) == old(Store(tdb.Snapshot(), tdb.nextId))
  {
    stocks := SeedAndList(sdb);
  }

  /** `CollectEach`, which touches no stored instrument. */
  method CollectEachBeside(sdb: StockTable, tdb: TradingTable, stocks: seq<StockFields>, web: string -> seq<Response>, classify: Row -> RowOutcome)
    returns (results: CollectionResults)
    requires sdb.Valid() && tdb.Valid() && KeepsOnly(classify, IsoDated)
    modifies tdb
    ensures sdb.Valid() && tdb.Valid()
    ensures var run := SaveEach(Store(old(tdb.Snapshot()), old(tdb.nextId)), Batches(stocks, web, classify));
      && Store(tdb.Snapshot(), tdb.nextId) == run.store
      && results == ResultsOf(stocks, run.succeeded)
    ensures Store(sdb.Snapshot(), sdb.nextId) == old(Store(sdb.Snapshot(), sdb.nextId))
  {
    results := CollectEach(tdb, stocks, web, classify);
  }

  /**
   * `collect_all_stocks_data` for a given row decision: seed the built-in list, list every
   * stored instrument, then run `CollectEach` over that listing.
   */
  method CollectAllFrom(sdb: StockTable, tdb: TradingTable, web: string -> seq<Response>, classify: Row -> RowOutcome)
    returns (results: CollectionResults, ghost stocks: seq<StockFields>)
    requires sdb.Valid() && tdb.Valid() && KeepsOnly(classify, IsoDated)
    modifies sdb, tdb
    ensures sdb.Valid() && tdb.Valid()
    ensures Store(sdb.Snapshot(), sdb.nextId) == SeedAll(Store(old(sdb.Snapshot()), old(sdb.nextId)), DEFAULT_STOCK_LIST)
    ensures ListsAll(stocks, sdb.Snapshot())
    ensures var run := SaveEach(Store(old(tdb.Snapshot()), old(tdb.nextId)), Batches(stocks, web, classify));
      && Store(tdb.Snapshot(), tdb.nextId) == run.store
      && results == ResultsOf(stocks, run.succeeded)
  {
    var allStocks := SeedAndListBeside(sdb, tdb);
    stocks := allStocks;
    results := CollectEachBeside(sdb, tdb, allStocks, web, classify);
  }

  /** `collect_all_stocks_data`: `CollectAllFrom` with `ClassifyRow` deciding each crawled row. */
  method CollectAllStocksData(sdb: StockTable, tdb: TradingTable, web: string -> seq<Response>, cutoff: Cutoff)
    returns (results: CollectionResults, ghost stocks: seq<StockFields>)
    requires sdb.Valid() && tdb.Valid()
    modifies sdb, tdb
    ensures sdb.Valid() && tdb.Valid()
    ensures Store(sdb.Snapshot(), sdb.nextId) == SeedAll(Store(old(sdb.Snapshot()), old(sdb.nextId)), DEFAULT_STOCK_LIST)
    ensures ListsAll(stocks, sdb.Snapshot())
    ensures var run := SaveEach(Store(old(tdb.Snapshot()), old(tdb.nextId)), Batches(stocks, web, Classifier(cutoff)));
      && Store(tdb.Snapshot(), tdb.nextId) == run.store
      && results == ResultsOf(stocks, run.succeeded)
  {
    ClassifierKeepsRecentRows(cutoff);
    results, stocks := CollectAllFrom(sdb, tdb, web, Classifier(cutoff));
  }
}

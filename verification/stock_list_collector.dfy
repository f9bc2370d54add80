/**
 * `StockListCollectorService`: the instrument lists. Two predefined lists (the "major" KOSPI
 * and KOSDAQ instruments) and a scrape of the KOSPI market-capitalisation ranking, page by
 * page, that replaces the predefined KOSPI list when it yields more than a hundred entries.
 *
 * The ranking site is a finite list of responses, one per page number (page 1 first); asking
 * for a page past its end is a failed request. A response is either a failed request (any
 * exception while fetching or parsing) or an HTTP status with the first `table.type_2` of the
 * page, if there is one, as its rows, each row the texts of its `td` cells.
 */
module StockListCollector {

  import opened Wrappers
  import opened PyText
  import opened DataCollector
  import StockService
  import TradingService

  /** One `tr` of the ranking table: the texts of its `td` cells. */
  type CellRow = seq<string>

  datatype ListResponse = FetchFailed | Fetched(status: int, table: Option<seq<CellRow>>)

  /** At most this many ranking pages are requested. */
  const MAX_PAGES := 50

  /** The scraped list replaces the predefined one only when it is longer than this. */
  const WEB_LIST_THRESHOLD := 100

  /** `raise_for_status`: a client or server error status raises. */
  predicate RaisesForStatus(status: int) {
    400 <= status < 600
  }

  /**
   * The row filter: a row with at least two cells whose stripped name (second cell) is not
   * empty and whose stripped code (first cell) is six digits gives one entry.
   */
  function RowEntry(cells: CellRow): Option<StockInfo> {
    if |cells| < 2 then None
    else
      var name := Strip(cells[1]);
      var code := Strip(cells[0]);
      if name != [] && code != [] && IsDigitString(code) && |code| == 6 then Some(StockInfo(code, name))
      else None
  }

  /** The shape every listed entry has: a code the stock service accepts, and a non-blank name, both stripped. */
  predicate Importable(e: StockInfo) {
    && StockService.ValidateStockCode(e.code) && Strip(e.code) == e.code
    && e.name != [] && Strip(e.name) == e.name
  }

  /** A row is kept exactly when it has two cells, a non-blank name and a code the stock service would accept. */
  lemma RowFilterRule(cells: CellRow)
    ensures RowEntry(cells).Some? <==>
      |cells| >= 2 && Strip(cells[1]) != [] && StockService.ValidateStockCode(Strip(cells[0]))
    ensures RowEntry(cells).Some? ==> Importable(RowEntry(cells).value)
  {
    if |cells| >= 2 {
      var code := Strip(cells[0]);
      TradingService.StrippedStockCodeRule(cells[0]);
      StockService.SameRulesAsTrading(code);
      if RowEntry(cells).Some? {
        StripIdempotent(cells[0]);
        StripIdempotent(cells[1]);
      }
    }
  }

  /** The entries of one page's rows, in row order: the row filter applied to each row. */
  function PageEntries(rows: seq<CellRow>): seq<StockInfo> {
    if rows == [] then []
    else
      var last := RowEntry(rows[|rows| - 1]);
      PageEntries(rows[..|rows| - 1]) + (if last.Some? then [last.value] else [])
  }

  /** Each entry of a page comes from one of its rows, and a page never has more entries than rows. */
  lemma {:induction false} PageEntriesFromRows(rows: seq<CellRow>)
    ensures |PageEntries(rows)| <= |rows|
    ensures forall e | e in PageEntries(rows) :: Importable(e) && exists r | r in rows :: RowEntry(r) == Some(e)
  {
    if rows != [] {
      var init := rows[..|rows| - 1];
      var last := rows[|rows| - 1];
      PageEntriesFromRows(init);
      RowFilterRule(last);
      forall e | e in PageEntries(rows)
        ensures Importable(e) && exists r | r in rows :: RowEntry(r) == Some(e)
      {
        if e in PageEntries(init) {
          var r :| r in init && RowEntry(r) == Some(e);
          assert r in rows;
        } else {
          assert RowEntry(last) == Some(e);
        }
      }
    }
  }

  /** The row loop of `collect_kospi_stocks_from_web` over one page. */
  method ScanListPage(rows: seq<CellRow>) returns (pageStocks: seq<StockInfo>)
    ensures pageStocks == PageEntries(rows)
  {
    pageStocks := [];
    for i := 0 to |rows|
      invariant pageStocks == PageEntries(rows[..i])
    {
      assert rows[..i + 1][..i] == rows[..i];
      var cells := rows[i];
      if |cells| >= 2 {
        var stockName := Strip(cells[1]);
        var stockCode := Strip(cells[0]);
        if stockName != [] && stockCode != [] && IsDigitString(stockCode) && |stockCode| == 6 {
          pageStocks := pageStocks + [StockInfo(stockCode, stockName)];
        }
      }
    }
    assert rows[..|rows|] == rows;
  }

  /**
   * The entries of one response, or `None` when the page loop breaks on it: a failed request,
   * an error status or no ranking table.
   */
  function ResponseEntries(response: ListResponse): Option<seq<StockInfo>> {
    match response
    case FetchFailed => None
    case Fetched(status, table) =>
      if RaisesForStatus(status) || table.None? then None else Some(PageEntries(table.value))
  }

  /** The entries of page `i + 1`; a page past the end of the site is a failed request. */
  function PageAt(site: seq<ListResponse>, i: nat): Option<seq<StockInfo>> {
    if i >= |site| then None else ResponseEntries(site[i])
  }

  /**
   * The body of the page loop up to the emptiness check: fetch, check the status, find the
   * ranking table and filter its rows.
   */
  method ReadListPage(response: ListResponse) returns (pageStocks: Option<seq<StockInfo>>)
    ensures pageStocks == ResponseEntries(response)
  {
    if response.FetchFailed? || RaisesForStatus(response.status) {
      return None;
    }
    if response.table.None? {
      return None;
    }
    var rows := ScanListPage(response.table.value);
    pageStocks := Some(rows);
  }

  /** Page `i + 1` is added to the list and the loop goes on to the next page. */
  predicate Continues(site: seq<ListResponse>, i: nat) {
    PageAt(site, i).Some? && PageAt(site, i).value != []
  }

  /** The entries the page loop gathers from page `i + 1` on. */
  function WebListFrom(site: seq<ListResponse>, i: nat): seq<StockInfo>
    decreases MAX_PAGES - i
  {
    if i >= MAX_PAGES then []
    else match PageAt(site, i)
      case None => []
      case Some(entries) => if entries == [] then [] else entries + WebListFrom(site, i + 1)
  }

  /** What `collect_kospi_stocks_from_web` returns for a site. */
  function WebList(site: seq<ListResponse>): seq<StockInfo> {
    WebListFrom(site, 0)
  }

  /** One step of the page loop: a page that continues adds its entries, any other page ends the list. */
  lemma WebListStep(site: seq<ListResponse>, i: nat)
    requires i < MAX_PAGES
    ensures WebListFrom(site, i) == if Continues(site, i) then PageAt(site, i).value + WebListFrom(site, i + 1) else []
  {
  }

  /** The page loop of `collect_kospi_stocks_from_web`. */
  method CollectKospiStocksFromWeb(site: seq<ListResponse>) returns (allStocks: seq<StockInfo>)
    ensures allStocks == WebList(site)
  {
    allStocks := [];
    var page := 1;
    while page <= MAX_PAGES
      invariant 1 <= page <= MAX_PAGES + 1
      invariant allStocks + WebListFrom(site, page - 1) == WebList(site)
      decreases MAX_PAGES + 1 - page
    {
      WebListStep(site, page - 1);
      var response := if page <= |site| then site[page - 1] else FetchFailed;
      var pageStocks := ReadListPage(response);
      if pageStocks.None? || pageStocks.value == [] {
        assert allStocks + [] == allStocks;
        break;
      }
      allStocks := allStocks + pageStocks.value;
      page := page + 1;
    }
  }

  /** The entries of pages `i + 1` to `j`, one page after the other. */
  function Pages(site: seq<ListResponse>, i: nat, j: nat): seq<StockInfo>
    decreases j - i
  {
    if i >= j then [] else PageAt(site, i).GetOr([]) + Pages(site, i + 1, j)
  }

  /** How many pages the loop adds, counting from page `i + 1`: it stops at the first page that does not continue. */
  function PagesRead(site: seq<ListResponse>, i: nat): (k: nat)
    requires i <= MAX_PAGES
    ensures i <= k <= MAX_PAGES
    ensures forall j | i <= j < k :: Continues(site, j)
    ensures k == MAX_PAGES || !Continues(site, k)
    decreases MAX_PAGES - i
  {
    if i == MAX_PAGES || !Continues(site, i) then i else PagesRead(site, i + 1)
  }

  lemma {:induction false} WebListFromUpTo(site: seq<ListResponse>, i: nat, k: nat)
    requires i <= k <= MAX_PAGES
    requires forall j | i <= j < k :: Continues(site, j)
    requires k == MAX_PAGES || !Continues(site, k)
    ensures WebListFrom(site, i) == Pages(site, i, k)
    decreases k - i
  {
    if i < k {
      WebListStep(site, i);
      assert Continues(site, i);
      WebListFromUpTo(site, i + 1, k);
    } else if i < MAX_PAGES {
      WebListStep(site, i);
    }
  }

  /**
   * The scraped list is the concatenation of the entries of the pages read, in page order,
   * where the pages read are every page before the first one that fails, has no ranking table
   * or has no kept row, and never more than fifty.
   */
  lemma WebListIsPagesInOrder(site: seq<ListResponse>, k: nat)
    requires k <= MAX_PAGES
    requires forall j | 0 <= j < k :: Continues(site, j)
    requires k == MAX_PAGES || !Continues(site, k)
    ensures WebList(site) == Pages(site, 0, k)
  {
    WebListFromUpTo(site, 0, k);
  }

  /** Nothing past page fifty matters: the site cut to its first fifty pages gives the same list. */
  lemma {:induction false} OnlyFirstPagesRead(site: seq<ListResponse>, i: nat)
    ensures WebListFrom(site, i) == WebListFrom(site[..if |site| < MAX_PAGES then |site| else MAX_PAGES], i)
    decreases MAX_PAGES - i
  {
    var cut := site[..if |site| < MAX_PAGES then |site| else MAX_PAGES];
    if i < MAX_PAGES {
      assert PageAt(site, i) == PageAt(cut, i);
      OnlyFirstPagesRead(site, i + 1);
    }
  }

  /** Every scraped entry has a six-digit code the stock service accepts and a non-blank name. */
  lemma {:induction false} WebListImportable(site: seq<ListResponse>, i: nat)
    ensures forall e | e in WebListFrom(site, i) :: Importable(e)
    decreases MAX_PAGES - i
  {
    if i < MAX_PAGES && Continues(site, i) {
      var table := site[i].table.value;
      PageEntriesFromRows(table);
      WebListImportable(site, i + 1);
    }
  }

  /** `KOSPI_MAJOR_STOCKS`, in source order, in blocks of five. */
  const KOSPI_MAJOR_STOCKS: seq<StockInfo> :=
    KOSPI_MAJOR_STOCKS_1 + KOSPI_MAJOR_STOCKS_2 + KOSPI_MAJOR_STOCKS_3 + KOSPI_MAJOR_STOCKS_4
    + KOSPI_MAJOR_STOCKS_5 + KOSPI_MAJOR_STOCKS_6 + KOSPI_MAJOR_STOCKS_7 + KOSPI_MAJOR_STOCKS_8
    + KOSPI_MAJOR_STOCKS_9 + KOSPI_MAJOR_STOCKS_10 + KOSPI_MAJOR_STOCKS_11 + KOSPI_MAJOR_STOCKS_12

  const KOSPI_MAJOR_STOCKS_1: seq<StockInfo> := [
    StockInfo("005930", "삼성전자"),
    StockInfo("000660", "SK하이닉스"),
    StockInfo("035420", "NAVER"),
    StockInfo("051910", "LG화학"),
    StockInfo("006400", "삼성SDI")
  ]

  const KOSPI_MAJOR_STOCKS_2: seq<StockInfo> := [
    StockInfo("035720", "카카오"),
    StockInfo("051900", "LG생활건강"),
    StockInfo("068270", "셀트리온"),
    StockInfo("207940", "삼성바이오로직스"),
    StockInfo("006980", "우성사료")
  ]

  const KOSPI_MAJOR_STOCKS_3: seq<StockInfo> := [
    StockInfo("028260", "삼성물산"),
    StockInfo("015760", "한국전력"),
    StockInfo("032830", "삼성생명"),
    StockInfo("086790", "하나금융지주"),
    StockInfo("105560", "KB금융")
  ]

  const KOSPI_MAJOR_STOCKS_4: seq<StockInfo> := [
    StockInfo("055550", "신한지주"),
    StockInfo("005380", "현대차"),
    StockInfo("000270", "기아"),
    StockInfo("373220", "LG에너지솔루션"),
    StockInfo("323410", "카카오뱅크")
  ]

  const KOSPI_MAJOR_STOCKS_5: seq<StockInfo> := [
    StockInfo("006800", "미래에셋증권"),
    StockInfo("003670", "포스코퓨처엠"),
    StockInfo("017670", "SK텔레콤"),
    StockInfo("018260", "삼성에스디에스"),
    StockInfo("096770", "SK이노베이션")
  ]

  const KOSPI_MAJOR_STOCKS_6: seq<StockInfo> := [
    StockInfo("010130", "고려아연"),
    StockInfo("011070", "LG이노텍"),
    StockInfo("009150", "삼성전기"),
    StockInfo("004020", "현대제철"),
    StockInfo("012330", "현대모비스")
  ]

  const KOSPI_MAJOR_STOCKS_7: seq<StockInfo> := [
    StockInfo("008560", "메리츠증권"),
    StockInfo("000810", "삼성화재"),
    StockInfo("009830", "한화솔루션"),
    StockInfo("010950", "S-Oil"),
    StockInfo("011200", "HMM")
  ]

  const KOSPI_MAJOR_STOCKS_8: seq<StockInfo> := [
    StockInfo("008770", "호텔신라"),
    StockInfo("004990", "롯데지주"),
    StockInfo("002790", "아모레G"),
    StockInfo("035250", "강원랜드"),
    StockInfo("008930", "한미사이언스")
  ]

  const KOSPI_MAJOR_STOCKS_9: seq<StockInfo> := [
    StockInfo("000720", "현대건설"),
    StockInfo("009240", "한샘"),
    StockInfo("008110", "대동전자"),
    StockInfo("007310", "오뚜기"),
    StockInfo("005300", "롯데칠성")
  ]

  const KOSPI_MAJOR_STOCKS_10: seq<StockInfo> := [
    StockInfo("004170", "신세계"),
    StockInfo("003490", "대한항공"),
    StockInfo("002460", "화천기계"),
    StockInfo("001800", "오리온홀딩스"),
    StockInfo("001450", "현대해상")
  ]

  const KOSPI_MAJOR_STOCKS_11: seq<StockInfo> := [
    StockInfo("001040", "CJ"),
    StockInfo("000880", "한화"),
    StockInfo("000660", "SK하이닉스"),
    StockInfo("000590", "CS홀딩스"),
    StockInfo("000430", "대원강업")
  ]

  const KOSPI_MAJOR_STOCKS_12: seq<StockInfo> := [
    StockInfo("000270", "기아"),
    StockInfo("000120", "CJ대한통운")
  ]

  /** `KOSDAQ_MAJOR_STOCKS`, in source order, in blocks of five. */
  const KOSDAQ_MAJOR_STOCKS: seq<StockInfo> :=
    KOSDAQ_MAJOR_STOCKS_1 + KOSDAQ_MAJOR_STOCKS_2 + KOSDAQ_MAJOR_STOCKS_3 + KOSDAQ_MAJOR_STOCKS_4
    + KOSDAQ_MAJOR_STOCKS_5 + KOSDAQ_MAJOR_STOCKS_6 + KOSDAQ_MAJOR_STOCKS_7 + KOSDAQ_MAJOR_STOCKS_8
    + KOSDAQ_MAJOR_STOCKS_9 + KOSDAQ_MAJOR_STOCKS_10 + KOSDAQ_MAJOR_STOCKS_11

  const KOSDAQ_MAJOR_STOCKS_1: seq<StockInfo> := [
    StockInfo("035420", "NAVER"),
    StockInfo("035720", "카카오"),
    StockInfo("323410", "카카오뱅크"),
    StockInfo("068270", "셀트리온"),
    StockInfo("207940", "삼성바이오로직스")
  ]

  const KOSDAQ_MAJOR_STOCKS_2: seq<StockInfo> := [
    StockInfo("006400", "삼성SDI"),
    StockInfo("051910", "LG화학"),
    StockInfo("373220", "LG에너지솔루션"),
    StockInfo("051900", "LG생활건강"),
    StockInfo("006980", "우성사료")
  ]

  const KOSDAQ_MAJOR_STOCKS_3: seq<StockInfo> := [
    StockInfo("028260", "삼성물산"),
    StockInfo("015760", "한국전력"),
    StockInfo("032830", "삼성생명"),
    StockInfo("086790", "하나금융지주"),
    StockInfo("105560", "KB금융")
  ]

  const KOSDAQ_MAJOR_STOCKS_4: seq<StockInfo> := [
    StockInfo("055550", "신한지주"),
    StockInfo("005380", "현대차"),
    StockInfo("000270", "기아"),
    StockInfo("006800", "미래에셋증권"),
    StockInfo("003670", "포스코퓨처엠")
  ]

  const KOSDAQ_MAJOR_STOCKS_5: seq<StockInfo> := [
    StockInfo("017670", "SK텔레콤"),
    StockInfo("018260", "삼성에스디에스"),
    StockInfo("096770", "SK이노베이션"),
    StockInfo("010130", "고려아연"),
    StockInfo("011070", "LG이노텍")
  ]

  const KOSDAQ_MAJOR_STOCKS_6: seq<StockInfo> := [
    StockInfo("009150", "삼성전기"),
    StockInfo("004020", "현대제철"),
    StockInfo("012330", "현대모비스"),
    StockInfo("008560", "메리츠증권"),
    StockInfo("000810", "삼성화재")
  ]

  const KOSDAQ_MAJOR_STOCKS_7: seq<StockInfo> := [
    StockInfo("009830", "한화솔루션"),
    StockInfo("010950", "S-Oil"),
    StockInfo("011200", "HMM"),
    StockInfo("008770", "호텔신라"),
    StockInfo("004990", "롯데지주")
  ]

  const KOSDAQ_MAJOR_STOCKS_8: seq<StockInfo> := [
    StockInfo("002790", "아모레G"),
    StockInfo("035250", "강원랜드"),
    StockInfo("008930", "한미사이언스"),
    StockInfo("000720", "현대건설"),
    StockInfo("009240", "한샘")
  ]

  const KOSDAQ_MAJOR_STOCKS_9: seq<StockInfo> := [
    StockInfo("008110", "대동전자"),
    StockInfo("007310", "오뚜기"),
    StockInfo("005300", "롯데칠성"),
    StockInfo("004170", "신세계"),
    StockInfo("003490", "대한항공")
  ]

  const KOSDAQ_MAJOR_STOCKS_10: seq<StockInfo> := [
    StockInfo("002460", "화천기계"),
    StockInfo("001800", "오리온홀딩스"),
    StockInfo("001450", "현대해상"),
    StockInfo("001040", "CJ"),
    StockInfo("000880", "한화")
  ]

  const KOSDAQ_MAJOR_STOCKS_11: seq<StockInfo> := [
    StockInfo("000660", "SK하이닉스"),
    StockInfo("000590", "CS홀딩스"),
    StockInfo("000430", "대원강업"),
    StockInfo("000270", "기아"),
    StockInfo("000120", "CJ대한통운")
  ]

  /** An entry of the predefined lists passes the checks a scraped entry passes. */
  lemma ShapedEntryImportable(e: StockInfo)
    requires EntryShape(e)
    ensures Importable(e)
  {
    assert AllDigits(e.code);
    TradingService.StockCodeRule(e.code);
    StockService.SameRulesAsTrading(e.code);
    DigitsHaveNoSpace(e.code);
    StripNoSpaceEnds(e.code);
    StripNoSpaceEnds(e.name);
  }

  lemma KospiBlockShaped1()
    ensures AllShaped(KOSPI_MAJOR_STOCKS_1)
  {
    var list := KOSPI_MAJOR_STOCKS_1;
    assert EntryShape(list[0]) && EntryShape(list[1]) && EntryShape(list[2]);
    assert EntryShape(list[3]) && EntryShape(list[4]);
  }

  lemma KospiBlockShaped2()
    ensures AllShaped(KOSPI_MAJOR_STOCKS_2)
  {
    var list := KOSPI_MAJOR_STOCKS_2;
    assert EntryShape(list[0]) && EntryShape(list[1]) && EntryShape(list[2]);
    assert EntryShape(list[3]) && EntryShape(list[4]);
  }

  lemma KospiBlockShaped3()
    ensures AllShaped(KOSPI_MAJOR_STOCKS_3)
  {
    var list := KOSPI_MAJOR_STOCKS_3;
    assert EntryShape(list[0]) && EntryShape(list[1]) && EntryShape(list[2]);
    assert EntryShape(list[3]) && EntryShape(list[4]);
  }

  lemma KospiBlockShaped4()
    ensures AllShaped(KOSPI_MAJOR_STOCKS_4)
  {
    var list := KOSPI_MAJOR_STOCKS_4;
    assert EntryShape(list[0]) && EntryShape(list[1]) && EntryShape(list[2]);
    assert EntryShape(list[3]) && EntryShape(list[4]);
  }

  lemma KospiBlockShaped5()
    ensures AllShaped(KOSPI_MAJOR_STOCKS_5)
  {
    var list := KOSPI_MAJOR_STOCKS_5;
    assert EntryShape(list[0]) && EntryShape(list[1]) && EntryShape(list[2]);
    assert EntryShape(list[3]) && EntryShape(list[4]);
  }

  lemma KospiBlockShaped6()
    ensures AllShaped(KOSPI_MAJOR_STOCKS_6)
  {
    var list := KOSPI_MAJOR_STOCKS_6;
    assert EntryShape(list[0]) && EntryShape(list[1]) && EntryShape(list[2]);
    assert EntryShape(list[3]) && EntryShape(list[4]);
  }

  lemma KospiBlockShaped7()
    ensures AllShaped(KOSPI_MAJOR_STOCKS_7)
  {
    var list := KOSPI_MAJOR_STOCKS_7;
    assert EntryShape(list[0]) && EntryShape(list[1]) && EntryShape(list[2]);
    assert EntryShape(list[3]) && EntryShape(list[4]);
  }

  lemma KospiBlockShaped8()
    ensures AllShaped(KOSPI_MAJOR_STOCKS_8)
  {
    var list := KOSPI_MAJOR_STOCKS_8;
    assert EntryShape(list[0]) && EntryShape(list[1]) && EntryShape(list[2]);
    assert EntryShape(list[3]) && EntryShape(list[4]);
  }

  lemma KospiBlockShaped9()
    ensures AllShaped(KOSPI_MAJOR_STOCKS_9)
  {
    var list := KOSPI_MAJOR_STOCKS_9;
    assert EntryShape(list[0]) && EntryShape(list[1]) && EntryShape(list[2]);
    assert EntryShape(list[3]) && EntryShape(list[4]);
  }

  lemma KospiBlockShaped10()
    ensures AllShaped(KOSPI_MAJOR_STOCKS_10)
  {
    var list := KOSPI_MAJOR_STOCKS_10;
    assert EntryShape(list[0]) && EntryShape(list[1]) && EntryShape(list[2]);
    assert EntryShape(list[3]) && EntryShape(list[4]);
  }

  lemma KospiBlockShaped11()
    ensures AllShaped(KOSPI_MAJOR_STOCKS_11)
  {
    var list := KOSPI_MAJOR_STOCKS_11;
    assert EntryShape(list[0]) && EntryShape(list[1]) && EntryShape(list[2]);
    assert EntryShape(list[3]) && EntryShape(list[4]);
  }

  lemma KospiBlockShaped12()
    ensures AllShaped(KOSPI_MAJOR_STOCKS_12)
  {
    var list := KOSPI_MAJOR_STOCKS_12;
    assert EntryShape(list[0]) && EntryShape(list[1]);
  }

  /** Every entry of the predefined KOSPI list has a six-digit code and a name of 1 to 100 characters. */
  lemma KospiListShaped()
    ensures AllShaped(KOSPI_MAJOR_STOCKS)
  {
    KospiBlockShaped1();
    KospiBlockShaped2();
    KospiBlockShaped3();
    KospiBlockShaped4();
    KospiBlockShaped5();
    KospiBlockShaped6();
    KospiBlockShaped7();
    KospiBlockShaped8();
    KospiBlockShaped9();
    KospiBlockShaped10();
    KospiBlockShaped11();
    KospiBlockShaped12();
    var list := KOSPI_MAJOR_STOCKS_1;
    AllShapedAppend(list, KOSPI_MAJOR_STOCKS_2);
    list := list + KOSPI_MAJOR_STOCKS_2;
    AllShapedAppend(list, KOSPI_MAJOR_STOCKS_3);
    list := list + KOSPI_MAJOR_STOCKS_3;
    AllShapedAppend(list, KOSPI_MAJOR_STOCKS_4);
    list := list + KOSPI_MAJOR_STOCKS_4;
    AllShapedAppend(list, KOSPI_MAJOR_STOCKS_5);
    list := list + KOSPI_MAJOR_STOCKS_5;
    AllShapedAppend(list, KOSPI_MAJOR_STOCKS_6);
    list := list + KOSPI_MAJOR_STOCKS_6;
    AllShapedAppend(list, KOSPI_MAJOR_STOCKS_7);
    list := list + KOSPI_MAJOR_STOCKS_7;
    AllShapedAppend(list, KOSPI_MAJOR_STOCKS_8);
    list := list + KOSPI_MAJOR_STOCKS_8;
    AllShapedAppend(list, KOSPI_MAJOR_STOCKS_9);
    list := list + KOSPI_MAJOR_STOCKS_9;
    AllShapedAppend(list, KOSPI_MAJOR_STOCKS_10);
    list := list + KOSPI_MAJOR_STOCKS_10;
    AllShapedAppend(list, KOSPI_MAJOR_STOCKS_11);
    list := list + KOSPI_MAJOR_STOCKS_11;
    AllShapedAppend(list, KOSPI_MAJOR_STOCKS_12);
    list := list + KOSPI_MAJOR_STOCKS_12;
  }

  lemma KosdaqBlockShaped1()
    ensures AllShaped(KOSDAQ_MAJOR_STOCKS_1)
  {
    var list := KOSDAQ_MAJOR_STOCKS_1;
    assert EntryShape(list[0]) && EntryShape(list[1]) && EntryShape(list[2]);
    assert EntryShape(list[3]) && EntryShape(list[4]);
  }

  lemma KosdaqBlockShaped2()
    ensures AllShaped(KOSDAQ_MAJOR_STOCKS_2)
  {
    var list := KOSDAQ_MAJOR_STOCKS_2;
    assert EntryShape(list[0]) && EntryShape(list[1]) && EntryShape(list[2]);
    assert EntryShape(list[3]) && EntryShape(list[4]);
  }

  lemma KosdaqBlockShaped3()
    ensures AllShaped(KOSDAQ_MAJOR_STOCKS_3)
  {
    var list := KOSDAQ_MAJOR_STOCKS_3;
    assert EntryShape(list[0]) && EntryShape(list[1]) && EntryShape(list[2]);
    assert EntryShape(list[3]) && EntryShape(list[4]);
  }

  lemma KosdaqBlockShaped4()
    ensures AllShaped(KOSDAQ_MAJOR_STOCKS_4)
  {
    var list := KOSDAQ_MAJOR_STOCKS_4;
    assert EntryShape(list[0]) && EntryShape(list[1]) && EntryShape(list[2]);
    assert EntryShape(list[3]) && EntryShape(list[4]);
  }

  lemma KosdaqBlockShaped5()
    ensures AllShaped(KOSDAQ_MAJOR_STOCKS_5)
  {
    var list := KOSDAQ_MAJOR_STOCKS_5;
    assert EntryShape(list[0]) && EntryShape(list[1]) && EntryShape(list[2]);
    assert EntryShape(list[3]) && EntryShape(list[4]);
  }

  lemma KosdaqBlockShaped6()
    ensures AllShaped(KOSDAQ_MAJOR_STOCKS_6)
  {
    var list := KOSDAQ_MAJOR_STOCKS_6;
    assert EntryShape(list[0]) && EntryShape(list[1]) && EntryShape(list[2]);
    assert EntryShape(list[3]) && EntryShape(list[4]);
  }

  lemma KosdaqBlockShaped7()
    ensures AllShaped(KOSDAQ_MAJOR_STOCKS_7)
  {
    var list := KOSDAQ_MAJOR_STOCKS_7;
    assert EntryShape(list[0]) && EntryShape(list[1]) && EntryShape(list[2]);
    assert EntryShape(list[3]) && EntryShape(list[4]);
  }

  lemma KosdaqBlockShaped8()
    ensures AllShaped(KOSDAQ_MAJOR_STOCKS_8)
  {
    var list := KOSDAQ_MAJOR_STOCKS_8;
    assert EntryShape(list[0]) && EntryShape(list[1]) && EntryShape(list[2]);
    assert EntryShape(list[3]) && EntryShape(list[4]);
  }

  lemma KosdaqBlockShaped9()
    ensures AllShaped(KOSDAQ_MAJOR_STOCKS_9)
  {
    var list := KOSDAQ_MAJOR_STOCKS_9;
    assert EntryShape(list[0]) && EntryShape(list[1]) && EntryShape(list[2]);
    assert EntryShape(list[3]) && EntryShape(list[4]);
  }

  lemma KosdaqBlockShaped10()
    ensures AllShaped(KOSDAQ_MAJOR_STOCKS_10)
  {
    var list := KOSDAQ_MAJOR_STOCKS_10;
    assert EntryShape(list[0]) && EntryShape(list[1]) && EntryShape(list[2]);
    assert EntryShape(list[3]) && EntryShape(list[4]);
  }

  lemma KosdaqBlockShaped11()
    ensures AllShaped(KOSDAQ_MAJOR_STOCKS_11)
  {
    var list := KOSDAQ_MAJOR_STOCKS_11;
    assert EntryShape(list[0]) && EntryShape(list[1]) && EntryShape(list[2]);
    assert EntryShape(list[3]) && EntryShape(list[4]);
  }

  /** Every entry of the predefined KOSDAQ list has a six-digit code and a name of 1 to 100 characters. */
  lemma KosdaqListShaped()
    ensures AllShaped(KOSDAQ_MAJOR_STOCKS)
  {
    KosdaqBlockShaped1();
    KosdaqBlockShaped2();
    KosdaqBlockShaped3();
    KosdaqBlockShaped4();
    KosdaqBlockShaped5();
    KosdaqBlockShaped6();
    KosdaqBlockShaped7();
    KosdaqBlockShaped8();
    KosdaqBlockShaped9();
    KosdaqBlockShaped10();
    KosdaqBlockShaped11();
    var list := KOSDAQ_MAJOR_STOCKS_1;
    AllShapedAppend(list, KOSDAQ_MAJOR_STOCKS_2);
    list := list + KOSDAQ_MAJOR_STOCKS_2;
    AllShapedAppend(list, KOSDAQ_MAJOR_STOCKS_3);
    list := list + KOSDAQ_MAJOR_STOCKS_3;
    AllShapedAppend(list, KOSDAQ_MAJOR_STOCKS_4);
    list := list + KOSDAQ_MAJOR_STOCKS_4;
    AllShapedAppend(list, KOSDAQ_MAJOR_STOCKS_5);
    list := list + KOSDAQ_MAJOR_STOCKS_5;
    AllShapedAppend(list, KOSDAQ_MAJOR_STOCKS_6);
    list := list + KOSDAQ_MAJOR_STOCKS_6;
    AllShapedAppend(list, KOSDAQ_MAJOR_STOCKS_7);
    list := list + KOSDAQ_MAJOR_STOCKS_7;
    AllShapedAppend(list, KOSDAQ_MAJOR_STOCKS_8);
    list := list + KOSDAQ_MAJOR_STOCKS_8;
    AllShapedAppend(list, KOSDAQ_MAJOR_STOCKS_9);
    list := list + KOSDAQ_MAJOR_STOCKS_9;
    AllShapedAppend(list, KOSDAQ_MAJOR_STOCKS_10);
    list := list + KOSDAQ_MAJOR_STOCKS_10;
    AllShapedAppend(list, KOSDAQ_MAJOR_STOCKS_11);
    list := list + KOSDAQ_MAJOR_STOCKS_11;
  }

  /** The predefined KOSPI list has 57 entries and keeps its repeats: SK hynix and Kia each appear twice. */
  lemma KospiKeepsRepeats()
    ensures |KOSPI_MAJOR_STOCKS| == 57
    ensures KOSPI_MAJOR_STOCKS[1] == KOSPI_MAJOR_STOCKS[52] && KOSPI_MAJOR_STOCKS[1].code == "000660"
    ensures KOSPI_MAJOR_STOCKS[17] == KOSPI_MAJOR_STOCKS[55] && KOSPI_MAJOR_STOCKS[17].code == "000270"
  {
    var head := KOSPI_MAJOR_STOCKS_1 + KOSPI_MAJOR_STOCKS_2 + KOSPI_MAJOR_STOCKS_3 + KOSPI_MAJOR_STOCKS_4;
    var mid := KOSPI_MAJOR_STOCKS_5 + KOSPI_MAJOR_STOCKS_6 + KOSPI_MAJOR_STOCKS_7 + KOSPI_MAJOR_STOCKS_8;
    var end := KOSPI_MAJOR_STOCKS_9 + KOSPI_MAJOR_STOCKS_10 + KOSPI_MAJOR_STOCKS_11 + KOSPI_MAJOR_STOCKS_12;
    assert |head| == 20 && |mid| == 20 && |end| == 17;
    assert KOSPI_MAJOR_STOCKS == head + mid + end;
    assert KOSPI_MAJOR_STOCKS[1] == head[1] == KOSPI_MAJOR_STOCKS_1[1];
    assert KOSPI_MAJOR_STOCKS[17] == head[17] == KOSPI_MAJOR_STOCKS_4[2];
    assert KOSPI_MAJOR_STOCKS[52] == end[12] == KOSPI_MAJOR_STOCKS_11[2];
    assert KOSPI_MAJOR_STOCKS[55] == end[15] == KOSPI_MAJOR_STOCKS_12[0];
  }

  /** The predefined KOSDAQ list has 55 entries and keeps its repeat: Kia appears twice. */
  lemma KosdaqKeepsRepeats()
    ensures |KOSDAQ_MAJOR_STOCKS| == 55
    ensures KOSDAQ_MAJOR_STOCKS[17] == KOSDAQ_MAJOR_STOCKS[53] && KOSDAQ_MAJOR_STOCKS[17].code == "000270"
  {
    var head := KOSDAQ_MAJOR_STOCKS_1 + KOSDAQ_MAJOR_STOCKS_2 + KOSDAQ_MAJOR_STOCKS_3 + KOSDAQ_MAJOR_STOCKS_4;
    var mid := KOSDAQ_MAJOR_STOCKS_5 + KOSDAQ_MAJOR_STOCKS_6 + KOSDAQ_MAJOR_STOCKS_7 + KOSDAQ_MAJOR_STOCKS_8;
    var end := KOSDAQ_MAJOR_STOCKS_9 + KOSDAQ_MAJOR_STOCKS_10 + KOSDAQ_MAJOR_STOCKS_11;
    assert |head| == 20 && |mid| == 20 && |end| == 15;
    assert KOSDAQ_MAJOR_STOCKS == head + mid + end;
    assert KOSDAQ_MAJOR_STOCKS[17] == head[17] == KOSDAQ_MAJOR_STOCKS_4[2];
    assert KOSDAQ_MAJOR_STOCKS[53] == end[13] == KOSDAQ_MAJOR_STOCKS_11[3];
  }

  /** `collect_kospi_stocks`: a copy of the predefined KOSPI list, repeats included. */
  function KospiStocks(): (stocks: seq<StockInfo>)
    ensures |stocks| == 57 && stocks[1] == stocks[52] && stocks[17] == stocks[55]
    ensures forall e | e in stocks :: Importable(e)
  {
    KospiKeepsRepeats();
    KospiListShaped();
    assert forall e | e in KOSPI_MAJOR_STOCKS :: Importable(e) by {
      forall e | e in KOSPI_MAJOR_STOCKS ensures Importable(e) {
        var i :| 0 <= i < |KOSPI_MAJOR_STOCKS| && KOSPI_MAJOR_STOCKS[i] == e;
        ShapedEntryImportable(e);
      }
    }
    KOSPI_MAJOR_STOCKS
  }

  /** `collect_kosdaq_stocks`: a copy of the predefined KOSDAQ list, repeats included. */
  function KosdaqStocks(): (stocks: seq<StockInfo>)
    ensures |stocks| == 55 && stocks[17] == stocks[53]
    ensures forall e | e in stocks :: Importable(e)
  {
    KosdaqKeepsRepeats();
    KosdaqListShaped();
    assert forall e | e in KOSDAQ_MAJOR_STOCKS :: Importable(e) by {
      forall e | e in KOSDAQ_MAJOR_STOCKS ensures Importable(e) {
        var i :| 0 <= i < |KOSDAQ_MAJOR_STOCKS| && KOSDAQ_MAJOR_STOCKS[i] == e;
        ShapedEntryImportable(e);
      }
    }
    KOSDAQ_MAJOR_STOCKS
  }

  /**
   * `collect_kospi_all_stocks` given the scraped list: the scraped list when it has more than a
   * hundred entries, the predefined KOSPI list otherwise.
   */
  function KospiAllStocks(web: seq<StockInfo>): (stocks: seq<StockInfo>)
    ensures (stocks == web && |web| > WEB_LIST_THRESHOLD) || (stocks == KospiStocks() && |web| <= WEB_LIST_THRESHOLD)
    ensures |stocks| >= 57
  {
    if web != [] && |web| > WEB_LIST_THRESHOLD then web else KospiStocks()
  }

  /** `collect_kospi_all_stocks`: scrape the ranking, fall back to the predefined list. */
  method CollectKospiAllStocks(site: seq<ListResponse>) returns (stocks: seq<StockInfo>)
    ensures stocks == KospiAllStocks(WebList(site))
    ensures |stocks| >= 57 && forall e | e in stocks :: Importable(e)
  {
    var webStocks := CollectKospiStocksFromWeb(site);
    WebListImportable(site, 0);
    if webStocks != [] && |webStocks| > WEB_LIST_THRESHOLD {
      return webStocks;
    }
    stocks := KospiStocks();
  }

  /** The result of `collect_all_stocks`: both lists and their combined length. */
  datatype AllStocks = AllStocks(kospi: seq<StockInfo>, kosdaq: seq<StockInfo>, total: int)

  /** `collect_all_stocks`: both predefined lists, with `total` their combined length, 112. */
  function CollectAllStocks(): (r: AllStocks)
    ensures r.kospi == KospiStocks() && r.kosdaq == KosdaqStocks()
    ensures r.total == |r.kospi| + |r.kosdaq| == 112
  {
    var kospi := KospiStocks();
    var kosdaq := KosdaqStocks();
    AllStocks(kospi, kosdaq, |kospi| + |kosdaq|)
  }
}

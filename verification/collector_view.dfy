/**
 * The collection-run controller of the web API: one shared status record, the three handlers
 * that start, stop and reset a run, and the background run itself, which seeds the instrument
 * list and then crawls and saves every instrument in turn while publishing its progress.
 *
 * The background thread is run here as a sequential method. A stop request from another
 * thread is a parameter `stopAt`: `Some(k)` means the stop handler runs just before the run
 * checks `is_running` for the instrument at index `k` (`k == |stocks|`: after the last one,
 * before the completion check); `None` means no stop arrives.
 */
module CollectorView {

  import opened Wrappers
  import opened Values
  import opened StockModel
  import opened TradingModel
  import DataCollector

  /** `current_phase`. */
  datatype Phase = Idle | Initializing | Collecting | Completed | Cancelled | Error | Stopping

  /** The eleven entries of `collection_status`, as one value. */
  datatype StatusFields = StatusFields(
    isRunning: bool,
    currentStock: string,
    progress: int,
    totalStocks: int,
    successCount: int,
    failedCount: int,
    startTime: Option<string>,
    endTime: Option<string>,
    currentPhase: Phase,
    errorMessage: string,
    failedStocks: seq<string>)

  /** The status at import time and after every reset. */
  const IDLE_STATUS := StatusFields(false, "", 0, 0, 0, 0, None, None, Idle, "", [])

  const INITIALIZING_LABEL := "주식 목록 초기화 중..."
  const NO_STOCKS_MESSAGE := "수집할 주식이 없습니다"
  const COMPLETED_LABEL := "데이터 수집 완료"
  const CANCELLED_LABEL := "데이터 수집 중단됨"
  /** The error text the run records when `progress` is read before it was ever assigned. */
  const UNBOUND_PROGRESS_MESSAGE :=
    "데이터 수집 중 오류: cannot access local variable 'progress' where it is not associated with a value"

  predicate NoDup(s: seq<string>) {
    forall a, b | 0 <= a < b < |s| :: s[a] != s[b]
  }

  /** The failure-list step of `update_progress`: append a non-empty entry not already listed. */
  function AppendFailed(list: seq<string>, entry: string): seq<string> {
    if entry != "" && entry !in list then list + [entry] else list
  }

  /**
   * The failure list only grows, by the entry when it is non-empty and new, and never gains a
   * duplicate.
   */
  lemma AppendFailedFacts(list: seq<string>, entry: string)
    ensures var r := AppendFailed(list, entry);
      && (forall x :: x in r <==> x in list || (x == entry && entry != ""))
      && |list| <= |r| && r[..|list|] == list
      && (NoDup(list) ==> NoDup(r))
  {
    var r := AppendFailed(list, entry);
    assert r[..|list|] == list;
  }

  /**
   * `update_progress` on a status value: phase, stock, progress, both counts and the error
   * message are overwritten, the failure list goes through `AppendFailed`, and the run flag,
   * the total and both times are kept.
   */
  function Progressed(s: StatusFields, phase: Phase, currentStock: string, progress: int,
                      successCount: int, failedCount: int, errorMessage: string, failedStock: string): (r: StatusFields)
    ensures r.isRunning == s.isRunning && r.totalStocks == s.totalStocks
    ensures r.startTime == s.startTime && r.endTime == s.endTime
  {
    s.(currentPhase := phase, currentStock := currentStock, progress := progress,
       successCount := successCount, failedCount := failedCount, errorMessage := errorMessage,
       failedStocks := AppendFailed(s.failedStocks, failedStock))
  }

  /** `collection_status`: the dictionary the handlers and the background run share. */
  class CollectionStatus {
    var isRunning: bool
    var currentStock: string
    var progress: int
    var totalStocks: int
    var successCount: int
    var failedCount: int
    var startTime: Option<string>
    var endTime: Option<string>
    var currentPhase: Phase
    var errorMessage: string
    var failedStocks: seq<string>

    function Fields(): StatusFields
      reads this
    {
      StatusFields(isRunning, currentStock, progress, totalStocks, successCount, failedCount,
                   startTime, endTime, currentPhase, errorMessage, failedStocks)
    }

    /** The module-level initial value. */
    constructor ()
      ensures Fields() == IDLE_STATUS
    {
      isRunning, currentStock, progress, totalStocks := false, "", 0, 0;
      successCount, failedCount, startTime, endTime := 0, 0, None, None;
      currentPhase, errorMessage, failedStocks := Idle, "", [];
    }

    /** `reset_collection_status`: every entry back to its idle default. */
    method Reset()
      modifies this
      ensures Fields() == IDLE_STATUS
    {
      isRunning, currentStock, progress, totalStocks := false, "", 0, 0;
      successCount, failedCount, startTime, endTime := 0, 0, None, None;
      currentPhase, errorMessage, failedStocks := Idle, "", [];
    }

    /** `update_progress`. */
    method UpdateProgress(phase: Phase, currentStock: string, progress: int, successCount: int,
                          failedCount: int, errorMessage: string, failedStock: string)
      modifies this
      ensures Fields() == Progressed(old(Fields()), phase, currentStock, progress, successCount,
                                     failedCount, errorMessage, failedStock)
    {
      this.currentPhase, this.currentStock, this.progress := phase, currentStock, progress;
      this.successCount, this.failedCount, this.errorMessage := successCount, failedCount, errorMessage;
      if failedStock != "" && failedStock !in failedStocks {
        failedStocks := failedStocks + [failedStock];
      }
    }
  }

  /** The `years` a start request asks for: 3 when the body has none. */
  function RequestedYears(years: Option<Json>): Option<int> {
    if years.None? then Some(3) else AsPyInt(years.value)
  }

  /** The start handler's check on `years`: an `int` (a `bool` counts) from 1 to 10. */
  predicate YearsAccepted(years: Option<Json>) {
    var y := RequestedYears(years);
    y.Some? && 1 <= y.value <= 10
  }

  /** `years` is accepted exactly when it is absent, an integer from 1 to 10, or `true`. */
  lemma YearsRule(years: Option<Json>)
    ensures YearsAccepted(years) <==>
      years.None? || (years.value.JInt? && 1 <= years.value.i <= 10) || years.value == JBool(true)
  {
    if years.Some? {
      var v := years.value;
      assert v.JBool? ==> AsPyInt(v) == Some(if v.b then 1 else 0);
    }
  }

  /**
   * `start_collection`: rejected with 400 while a run is going or when `years` is not an
   * integer from 1 to 10; otherwise the status is reset and the run may start with `years`.
   */
  method StartCollection(status: CollectionStatus, years: Option<Json>) returns (code: int, accepted: Option<int>)
    modifies status
    ensures code == 200 <==> !old(status.isRunning) && YearsAccepted(years)
    ensures code == 200 || code == 400
    ensures code == 200 ==>
      (status.Fields() == IDLE_STATUS && accepted == RequestedYears(years) && 1 <= accepted.value <= 10)
    ensures code == 400 ==> status.Fields() == old(status.Fields()) && accepted.None?
  {
    if status.isRunning {
      return 400, None;
    }
    var y := RequestedYears(years);
    if y.None? || y.value < 1 || y.value > 10 {
      return 400, None;
    }
    status.Reset();
    code, accepted := 200, y;
  }

  /** `stop_collection`: rejected with 400 unless a run is going; otherwise it asks the run to stop. */
  method StopCollection(status: CollectionStatus) returns (code: int)
    modifies status
    ensures code == (if old(status.isRunning) then 200 else 400)
    ensures status.Fields() ==
      if old(status.isRunning) then old(status.Fields()).(isRunning := false, currentPhase := Stopping)
      else old(status.Fields())
  {
    if !status.isRunning {
      return 400;
    }
    status.isRunning := false;
    status.currentPhase := Stopping;
    code := 200;
  }

  /** `reset_collection`: rejected with 400 while a run is going; otherwise the status is reset. */
  method ResetCollection(status: CollectionStatus) returns (code: int)
    modifies status
    ensures code == (if old(status.isRunning) then 400 else 200)
    ensures status.Fields() == if old(status.isRunning) then old(status.Fields()) else IDLE_STATUS
  {
    if status.isRunning {
      return 400;
    }
    status.Reset();
    code := 200;
  }

  /** The `"<code> <name>"` text the run shows for an instrument. */
  function Label(s: StockFields): string {
    s.stockCode + " " + s.stockName
  }

  /** How many instruments the loop processes before a stop request breaks it. */
  function Processed(n: nat, stopAt: Option<nat>): (k: nat)
    ensures k <= n
    ensures k < n <==> stopAt.Some? && stopAt.value < n
  {
    if stopAt.Some? && stopAt.value < n then stopAt.value else n
  }

  /** `int(i / n * 100)`, taken as the exact quotient. */
  function Percent(i: nat, n: nat): int
    requires n > 0
  {
    i * 100 / n
  }

  /** While the loop runs, progress stays below 100. */
  lemma PercentBelowHundred(i: nat, n: nat)
    requires i < n
    ensures 0 <= Percent(i, n) < 100
  {
    assert i * 100 < n * 100;
  }

  /**
   * The status updates for the instrument at index `j`: publish it with the counts so far; on
   * failure publish it again with the failure counted and its text appended to the failure list.
   */
  function StockStep(s: StatusFields, n: nat, j: nat, stock: StockFields, success: bool, succeeded: nat): StatusFields
    requires n > 0 && succeeded <= j
  {
    var p := Percent(j, n);
    var s1 := Progressed(s, Collecting, Label(stock), p, succeeded, j - succeeded, "", "");
    if success then s1 else Progressed(s1, Collecting, Label(stock), p, succeeded, j - succeeded + 1, "", Label(stock))
  }

  /** The status after the loop has processed the first `|flags|` instruments. */
  function LoopStatus(s: StatusFields, stocks: seq<StockFields>, flags: seq<bool>): StatusFields
    requires |flags| <= |stocks|
    decreases |flags|
  {
    if flags == [] then s
    else
      var j := |flags| - 1;
      StockStep(LoopStatus(s, stocks, flags[..j]), |stocks|, j, stocks[j], flags[j], DataCollector.CountTrue(flags[..j]))
  }

  /** The failure list after `AppendFailed` of each entry in turn. */
  function AppendAllFailed(list: seq<string>, entries: seq<string>): seq<string>
    decreases |entries|
  {
    if entries == [] then list else AppendAllFailed(AppendFailed(list, entries[0]), entries[1..])
  }

  lemma {:induction false} AppendAllFailedSnoc(list: seq<string>, entries: seq<string>, entry: string)
    ensures AppendAllFailed(list, entries + [entry]) == AppendFailed(AppendAllFailed(list, entries), entry)
    decreases |entries|
  {
    if entries == [] {
      assert entries + [entry] == [entry];
      assert [entry][1..] == [];
    } else {
      assert (entries + [entry])[0] == entries[0];
      assert (entries + [entry])[1..] == entries[1..] + [entry];
      AppendAllFailedSnoc(AppendFailed(list, entries[0]), entries[1..], entry);
    }
  }

  /** The result holds exactly the old list and the non-empty new entries, each at most once. */
  lemma {:induction false} AppendAllFailedContents(list: seq<string>, entries: seq<string>)
    ensures forall x :: x in AppendAllFailed(list, entries) <==> x in list || (x in entries && x != "")
    ensures NoDup(list) ==> NoDup(AppendAllFailed(list, entries))
    decreases |entries|
  {
    if entries != [] {
      AppendAllFailedContents(AppendFailed(list, entries[0]), entries[1..]);
      assert forall x :: x in entries <==> x == entries[0] || x in entries[1..];
    }
  }

  /**
   * After one or more instruments the status shows the last one with its percentage, below
   * 100, in the collecting phase with no error message.
   */
  lemma LoopStatusLast(s: StatusFields, stocks: seq<StockFields>, flags: seq<bool>)
    requires 0 < |flags| <= |stocks|
    ensures var r := LoopStatus(s, stocks, flags);
      && r.currentPhase == Collecting && r.currentStock == Label(stocks[|flags| - 1])
      && r.progress == Percent(|flags| - 1, |stocks|) && 0 <= r.progress < 100 && r.errorMessage == ""
  {
    PercentBelowHundred(|flags| - 1, |stocks|);
  }

  /**
   * The loop leaves the run flag, the total and the times untouched, and its failure list is
   * the one it started with plus the failure labels of `collect_all_stocks_data`, appended
   * without duplicates.
   */
  lemma {:induction false} LoopStatusKeeps(s: StatusFields, stocks: seq<StockFields>, flags: seq<bool>)
    requires |flags| <= |stocks|
    ensures var r := LoopStatus(s, stocks, flags);
      && r.isRunning == s.isRunning && r.totalStocks == s.totalStocks
      && r.startTime == s.startTime && r.endTime == s.endTime
      && r.failedStocks == AppendAllFailed(s.failedStocks, DataCollector.FailedLabels(stocks[..|flags|], flags))
    decreases |flags|
  {
    if flags == [] {
      assert stocks[..0] == [];
    } else {
      var j := |flags| - 1;
      LoopStatusKeeps(s, stocks, flags[..j]);
      LoopFailuresStep(s, stocks, flags);
    }
  }

  /** One instrument's updates append its label to the failure list exactly when it failed. */
  lemma StockStepFailures(s: StatusFields, n: nat, j: nat, stock: StockFields, success: bool, succeeded: nat)
    requires n > 0 && succeeded <= j
    ensures StockStep(s, n, j, stock, success, succeeded).failedStocks
      == if success then s.failedStocks else AppendFailed(s.failedStocks, Label(stock))
  {
    AppendFailedFacts(s.failedStocks, "");
  }

  /** The failure list after one more instrument, from the one before it. */
  lemma LoopFailuresStep(s: StatusFields, stocks: seq<StockFields>, flags: seq<bool>)
    requires 0 < |flags| <= |stocks|
    requires var j := |flags| - 1;
      LoopStatus(s, stocks, flags[..j]).failedStocks
        == AppendAllFailed(s.failedStocks, DataCollector.FailedLabels(stocks[..j], flags[..j]))
    ensures LoopStatus(s, stocks, flags).failedStocks
      == AppendAllFailed(s.failedStocks, DataCollector.FailedLabels(stocks[..|flags|], flags))
  {
    var j := |flags| - 1;
    var prev := LoopStatus(s, stocks, flags[..j]);
    StockStepFailures(prev, |stocks|, j, stocks[j], flags[j], DataCollector.CountTrue(flags[..j]));
    var done := stocks[..|flags|];
    DataCollector.FailedLabelsSnoc(done, flags);
    assert done[..j] == stocks[..j] && done[j] == stocks[j];
    var failed := DataCollector.FailedLabels(stocks[..j], flags[..j]);
    if flags[j] {
      assert failed + [] == failed;
    } else {
      AppendAllFailedSnoc(s.failedStocks, failed, Label(stocks[j]));
    }
  }

  /** The status when the loop ends: a stop request that arrived cleared the flag and set the phase. */
  function AfterLoop(s: StatusFields, stocks: seq<StockFields>, flags: seq<bool>, stopAt: Option<nat>): StatusFields
    requires |flags| <= |stocks|
  {
    var r := LoopStatus(s, stocks, flags);
    if stopAt.Some? && stopAt.value <= |stocks| then r.(isRunning := false, currentPhase := Stopping) else r
  }

  /** Whether a stop request arrives before the run's last check of `is_running`. */
  predicate Stopped(n: nat, stopAt: Option<nat>) {
    stopAt.Some? && stopAt.value <= n
  }

  /** The status once the run has started, announced the initializing phase and listed `n` instruments. */
  function Begun(s: StatusFields, startStamp: string, n: nat): StatusFields {
    Progressed(s.(isRunning := true, startTime := Some(startStamp)), Initializing, INITIALIZING_LABEL, 0, 0, 0, "", "")
      .(totalStocks := n)
  }

  /** The last `update_progress` of a run: phase, stock text, progress, both counts and error message. */
  datatype Ending = Ending(phase: Phase, stock: string, progress: int, successCount: int, failedCount: int,
                           message: string)

  /**
   * How a run over `n > 0` instruments ends: completed when no stop arrived, an error when the
   * stop came before the first instrument (the progress variable is then read unassigned),
   * cancelled otherwise.
   */
  function EndingOf(n: nat, flags: seq<bool>, stopped: bool): (e: Ending)
    requires 0 < n && |flags| <= n
    ensures e.phase == Cancelled ==> 0 <= e.progress < 100
  {
    var k := |flags|;
    var succeeded := DataCollector.CountTrue(flags);
    if !stopped then Ending(Completed, COMPLETED_LABEL, 100, succeeded, k - succeeded, "")
    else if k == 0 then Ending(Error, "", 0, 0, 0, UNBOUND_PROGRESS_MESSAGE)
    else
      PercentBelowHundred(k - 1, n);
      Ending(Cancelled, CANCELLED_LABEL, Percent(k - 1, n), succeeded, k - succeeded, "")
  }

  /** The end of a run from the status `a` the loop left: the end time, the ending, and the run flag cleared. */
  function Finish(a: StatusFields, n: nat, flags: seq<bool>, stopped: bool, endStamp: string): StatusFields
    requires 0 < n && |flags| <= n
  {
    var e := EndingOf(n, flags, stopped);
    Progressed(a.(endTime := Some(endStamp)), e.phase, e.stock, e.progress, e.successCount, e.failedCount, e.message, "")
      .(isRunning := false)
  }

  /** The status a background run leaves, from the status it started with and what happened. */
  function FinalStatus(s: StatusFields, stocks: seq<StockFields>, flags: seq<bool>, stopAt: Option<nat>,
                       startStamp: string, endStamp: string): StatusFields
    requires |flags| == Processed(|stocks|, stopAt)
  {
    var b := Begun(s, startStamp, |stocks|);
    if |stocks| == 0 then
      Progressed(b, Error, "", 0, 0, 0, NO_STOCKS_MESSAGE, "").(isRunning := false)
    else
      Finish(AfterLoop(Progressed(b, Collecting, "", 0, 0, 0, "", ""), stocks, flags, stopAt),
             |stocks|, flags, Stopped(|stocks|, stopAt), endStamp)
  }

  /** Whatever the outcome, the run flag is cleared, the end time set, and the total, the start time and the failure list kept. */
  lemma FinishKeeps(a: StatusFields, n: nat, flags: seq<bool>, stopped: bool, endStamp: string)
    requires 0 < n && |flags| <= n
    ensures var r := Finish(a, n, flags, stopped, endStamp);
      && !r.isRunning && r.endTime == Some(endStamp)
      && r.totalStocks == a.totalStocks && r.startTime == a.startTime && r.failedStocks == a.failedStocks
      && r.currentPhase == EndingOf(n, flags, stopped).phase
  {
    AppendFailedFacts(a.failedStocks, "");
  }

  /**
   * A run ends completed, cancelled or in error: completed exactly when no stop arrived,
   * cancelled exactly when the stop came after the first instrument.
   */
  lemma EndingPhase(n: nat, flags: seq<bool>, stopped: bool)
    requires 0 < n && |flags| <= n
    ensures var e := EndingOf(n, flags, stopped);
      && e.phase in {Completed, Cancelled, Error}
      && (e.phase == Completed <==> !stopped)
      && (e.phase == Cancelled <==> stopped && |flags| > 0)
  {
  }

  /**
   * A completed run shows progress 100 and all `n` instruments counted; a cancelled one the
   * last progress computed, below 100, and the processed instruments counted; a run in error
   * counts nothing and records the unassigned-progress error.
   */
  lemma EndingCounts(n: nat, flags: seq<bool>, stopped: bool)
    requires 0 < n && |flags| <= n && (!stopped ==> |flags| == n)
    ensures var e := EndingOf(n, flags, stopped);
      && (e.phase == Completed ==> e.progress == 100 && e.successCount + e.failedCount == n)
      && (e.phase == Cancelled ==> 0 <= e.progress < 100 && e.successCount + e.failedCount == |flags|)
      && (e.phase == Error ==> e.progress == 0 && e.successCount == 0 && e.failedCount == 0
                               && e.message == UNBOUND_PROGRESS_MESSAGE)
      && e.successCount == (if e.phase == Error then 0 else DataCollector.CountTrue(flags))
  {
  }

  /** No failure label is empty: each holds at least the space between code and name. */
  lemma {:induction false} FailedLabelsNonEmpty(stocks: seq<StockFields>, flags: seq<bool>)
    requires |flags| == |stocks|
    ensures forall x | x in DataCollector.FailedLabels(stocks, flags) :: x != ""
    decreases |stocks|
  {
    if stocks != [] {
      FailedLabelsNonEmpty(stocks[1..], flags[1..]);
      assert |Label(stocks[0])| > 0;
    }
  }

  /**
   * What every run promises about how it ends: it is not running afterwards, shows the number
   * of listed instruments and its start time, and ends completed, cancelled or in error; it
   * completes exactly when instruments were listed and no stop arrived.
   */
  lemma FinalStatusShape(s: StatusFields, stocks: seq<StockFields>, flags: seq<bool>, stopAt: Option<nat>,
                         startStamp: string, endStamp: string)
    requires |flags| == Processed(|stocks|, stopAt)
    ensures var r := FinalStatus(s, stocks, flags, stopAt, startStamp, endStamp);
      && !r.isRunning && r.totalStocks == |stocks| && r.startTime == Some(startStamp)
      && r.currentPhase in {Completed, Cancelled, Error}
      && (r.currentPhase == Completed <==> |stocks| > 0 && !Stopped(|stocks|, stopAt))
  {
    var n := |stocks|;
    if n > 0 {
      var base := Progressed(Begun(s, startStamp, n), Collecting, "", 0, 0, 0, "", "");
      LoopStatusKeeps(base, stocks, flags);
      FinishKeeps(AfterLoop(base, stocks, flags, stopAt), n, flags, Stopped(n, stopAt), endStamp);
      EndingPhase(n, flags, Stopped(n, stopAt));
    }
  }

  /**
   * The failure list a run leaves: the one it found, plus the failure label of each
   * processed instrument that could not be saved, each appended unless already listed.
   */
  lemma FinalFailedList(s: StatusFields, stocks: seq<StockFields>, flags: seq<bool>, stopAt: Option<nat>,
                        startStamp: string, endStamp: string)
    requires |flags| == Processed(|stocks|, stopAt)
    ensures FinalStatus(s, stocks, flags, stopAt, startStamp, endStamp).failedStocks
      == AppendAllFailed(s.failedStocks, DataCollector.FailedLabels(stocks[..|flags|], flags))
  {
    var n := |stocks|;
    var b := Begun(s, startStamp, n);
    AppendFailedFacts(s.failedStocks, "");
    AppendFailedFacts(b.failedStocks, "");
    if n == 0 {
      assert stocks[..|flags|] == [];
    } else {
      var base := Progressed(b, Collecting, "", 0, 0, 0, "", "");
      LoopStatusKeeps(base, stocks, flags);
      FinishKeeps(AfterLoop(base, stocks, flags, stopAt), n, flags, Stopped(n, stopAt), endStamp);
    }
  }

  /** Appending the failure labels lists every one of them and adds no duplicate. */
  lemma FailuresListed(list: seq<string>, stocks: seq<StockFields>, flags: seq<bool>)
    requires |flags| == |stocks|
    ensures var r := AppendAllFailed(list, DataCollector.FailedLabels(stocks, flags));
      && (forall x | x in DataCollector.FailedLabels(stocks, flags) :: x in r)
      && (NoDup(list) ==> NoDup(r))
  {
    AppendAllFailedContents(list, DataCollector.FailedLabels(stocks, flags));
    FailedLabelsNonEmpty(stocks, flags);
  }

  /**
   * What every run promises about its failure list: the failure label of every processed
   * instrument that could not be saved is listed, and the list gains no duplicates.
   */
  lemma FinalStatusFailures(s: StatusFields, stocks: seq<StockFields>, flags: seq<bool>, stopAt: Option<nat>,
                            startStamp: string, endStamp: string)
    requires |flags| == Processed(|stocks|, stopAt)
    ensures var r := FinalStatus(s, stocks, flags, stopAt, startStamp, endStamp);
      && (forall x | x in DataCollector.FailedLabels(stocks[..|flags|], flags) :: x in r.failedStocks)
      && (NoDup(s.failedStocks) ==> NoDup(r.failedStocks))
  {
    FinalFailedList(s, stocks, flags, stopAt, startStamp, endStamp);
    FailuresListed(s.failedStocks, stocks[..|flags|], flags);
  }

  /** The loop status after one more instrument. */
  lemma LoopStatusSnoc(s: StatusFields, stocks: seq<StockFields>, flags: seq<bool>, success: bool)
    requires |flags| < |stocks|
    ensures LoopStatus(s, stocks, flags + [success])
      == StockStep(LoopStatus(s, stocks, flags), |stocks|, |flags|, stocks[|flags|], success, DataCollector.CountTrue(flags))
  {
    var f := flags + [success];
    assert f[..|flags|] == flags && f[|flags|] == success;
  }

  /**
   * The body of the loop for the instrument at index `i`: publish it, crawl and save it, and on
   * failure publish it again with its label in the failure list.
   */
  method ProcessStock(status: CollectionStatus, tdb: TradingTable, stocks: seq<StockFields>, i: nat,
                      web: string -> seq<DataCollector.Response>, classify: DataCollector.Row -> DataCollector.RowOutcome,
                      successCount: nat, failedCount: nat)
    returns (success: bool)
    requires tdb.Valid() && DataCollector.KeepsOnly(classify, DataCollector.IsoDated)
    requires i < |stocks| && successCount + failedCount == i
    modifies status, tdb
    ensures tdb.Valid()
    ensures DataCollector.Store(tdb.Snapshot(), tdb.nextId)
      == DataCollector.SaveAll(DataCollector.Store(old(tdb.Snapshot()), old(tdb.nextId)),
                               stocks[i].stockCode, stocks[i].stockName,
                               DataCollector.CrawlFrom(web(stocks[i].stockCode), 0, classify))
    ensures success <==> tdb.nextId > old(tdb.nextId)
    ensures status.Fields() == StockStep(old(status.Fields()), |stocks|, i, stocks[i], success, successCount)
  {
    var stock := stocks[i];
    var p := Percent(i, |stocks|);
    ghost var before := DataCollector.Store(tdb.Snapshot(), tdb.nextId);
    status.UpdateProgress(Collecting, Label(stock), p, successCount, failedCount, "", "");
    assert DataCollector.Store(tdb.Snapshot(), tdb.nextId) == before;
    success := DataCollector.CollectAndSaveFrom(tdb, stock.stockCode, stock.stockName, web(stock.stockCode), classify);
    ghost var saved := DataCollector.Store(tdb.Snapshot(), tdb.nextId);
    if !success {
      status.UpdateProgress(Collecting, Label(stock), p, successCount, failedCount + 1, "", Label(stock));
    }
    assert DataCollector.Store(tdb.Snapshot(), tdb.nextId) == saved;
  }

  /**
   * What holds before the loop's pass at index `i` of a run that will process the first
   * `|run.succeeded|` instruments: the rest of the run saves what `run` accounts for, the
   * status shows the first `i` instruments, the counts add up to `i` and `progress` is the
   * last percentage computed.
   */
  ghost predicate LoopAt(status: CollectionStatus, tdb: TradingTable, stocks: seq<StockFields>,
                         web: string -> seq<DataCollector.Response>, classify: DataCollector.Row -> DataCollector.RowOutcome,
                         s: StatusFields, run: DataCollector.Round, i: nat,
                         successCount: nat, failedCount: nat, progress: Option<int>)
    reads status, tdb, tdb.Records()
  {
    && i <= |run.succeeded| <= |stocks|
    && tdb.Valid()
    && DataCollector.SaveEach(DataCollector.Store(tdb.Snapshot(), tdb.nextId),
                              DataCollector.Batches(stocks[..|run.succeeded|], web, classify)[i..])
       == DataCollector.Round(run.store, run.succeeded[i..])
    && status.Fields() == LoopStatus(s, stocks, run.succeeded[..i]) && status.isRunning
    && successCount == DataCollector.CountTrue(run.succeeded[..i]) && failedCount == i - successCount
    && progress == if i == 0 then None else Some(Percent(i - 1, |stocks|))
  }

  /**
   * The loop's pass at index `i` when the run is still going: process the instrument, then
   * count it and record its percentage as the last progress.
   */
  method CollectStep(status: CollectionStatus, tdb: TradingTable, stocks: seq<StockFields>,
                     web: string -> seq<DataCollector.Response>, classify: DataCollector.Row -> DataCollector.RowOutcome,
                     ghost s: StatusFields, ghost run: DataCollector.Round,
                     i: nat, successCount: nat, failedCount: nat, progress: Option<int>)
    returns (successCount': nat, failedCount': nat, progress': Option<int>)
    requires DataCollector.KeepsOnly(classify, DataCollector.IsoDated)
    requires i < |run.succeeded|
    requires LoopAt(status, tdb, stocks, web, classify, s, run, i, successCount, failedCount, progress)
    modifies status, tdb
    ensures LoopAt(status, tdb, stocks, web, classify, s, run, i + 1, successCount', failedCount', progress')
  {
    ghost var k := |run.succeeded|;
    ghost var batches := DataCollector.Batches(stocks[..k], web, classify);
    ghost var flags := run.succeeded[..i];
    DataCollector.SaveEachAdvance(DataCollector.Store(tdb.Snapshot(), tdb.nextId), batches, i, run);
    DataCollector.BatchesAt(stocks[..k], web, classify, i);
    assert stocks[..k][i] == stocks[i];
    var success := ProcessStock(status, tdb, stocks, i, web, classify, successCount, failedCount);
    LoopStatusSnoc(s, stocks, flags, success);
    DataCollector.CountTrueAppend(flags, [success]);
    assert run.succeeded[..i + 1] == flags + [success];
    progress' := Some(Percent(i, |stocks|));
    if success {
      successCount', failedCount' := successCount + 1, failedCount;
    } else {
      successCount', failedCount' := successCount, failedCount + 1;
    }
  }

  /**
   * The loop's pass at index `i` when the stop request arrives just before it: the stop
   * handler clears the run flag, the check breaks the loop, and the loop has then done all it
   * will.
   */
  method StopStep(status: CollectionStatus, tdb: TradingTable, stocks: seq<StockFields>,
                  web: string -> seq<DataCollector.Response>, classify: DataCollector.Row -> DataCollector.RowOutcome,
                  ghost s: StatusFields, ghost run: DataCollector.Round,
                  i: nat, successCount: nat, failedCount: nat, progress: Option<int>)
    requires i == |run.succeeded| < |stocks|
    requires LoopAt(status, tdb, stocks, web, classify, s, run, i, successCount, failedCount, progress)
    modifies status
    ensures tdb.Valid() && DataCollector.Store(tdb.Snapshot(), tdb.nextId) == run.store
    ensures status.Fields() == AfterLoop(s, stocks, run.succeeded, Some(i))
    ensures successCount == DataCollector.CountTrue(run.succeeded) && failedCount == |run.succeeded| - successCount
    ensures progress == if run.succeeded == [] then None else Some(Percent(|run.succeeded| - 1, |stocks|))
  {
    assert run.succeeded[..i] == run.succeeded && DataCollector.Batches(stocks[..i], web, classify)[i..] == [];
    ghost var saved := DataCollector.Store(tdb.Snapshot(), tdb.nextId);
    var _ := StopCollection(status);
    assert DataCollector.Store(tdb.Snapshot(), tdb.nextId) == saved;
  }

  /**
   * One pass of the loop's body at index `i`: the stop handler when the stop request arrives
   * here, then the `is_running` check, which either breaks the loop, leaving what the whole
   * loop promises, or processes the instrument and moves the counts and the progress on.
   */
  method Turn(status: CollectionStatus, tdb: TradingTable, stocks: seq<StockFields>,
              web: string -> seq<DataCollector.Response>, classify: DataCollector.Row -> DataCollector.RowOutcome,
              stopAt: Option<nat>, ghost s: StatusFields, ghost run: DataCollector.Round,
              i: nat, successCount: nat, failedCount: nat, progress: Option<int>)
    returns (broke: bool, successCount': nat, failedCount': nat, progress': Option<int>)
    requires DataCollector.KeepsOnly(classify, DataCollector.IsoDated)
    requires i < |stocks| && Processed(|stocks|, stopAt) == |run.succeeded|
    requires LoopAt(status, tdb, stocks, web, classify, s, run, i, successCount, failedCount, progress)
    modifies status, tdb
    ensures broke <==> stopAt == Some(i)
    ensures broke ==> && tdb.Valid() && DataCollector.Store(tdb.Snapshot(), tdb.nextId) == run.store
                      && status.Fields() == AfterLoop(s, stocks, run.succeeded, stopAt)
                      && successCount' == DataCollector.CountTrue(run.succeeded)
                      && failedCount' == |run.succeeded| - successCount'
                      && progress' == if run.succeeded == [] then None else Some(Percent(|run.succeeded| - 1, |stocks|))
    ensures !broke ==> LoopAt(status, tdb, stocks, web, classify, s, run, i + 1, successCount', failedCount', progress')
  {
    if stopAt == Some(i) {
      StopStep(status, tdb, stocks, web, classify, s, run, i, successCount, failedCount, progress);
      return true, successCount, failedCount, progress;
    }
    broke := false;
    successCount', failedCount', progress' :=
      CollectStep(status, tdb, stocks, web, classify, s, run, i, successCount, failedCount, progress);
  }

  /**
   * The loop of `collect_data_background` over the listed instruments, with the stop handler
   * run just before the check for index `stopAt`. It starts from status `s` and must save the
   * batches `run` accounts for; it returns the last progress computed, or `None` when none
   * was, which is when a stop broke the loop before its first instrument.
   */
  method CollectLoop(status: CollectionStatus, tdb: TradingTable, stocks: seq<StockFields>,
                     web: string -> seq<DataCollector.Response>, classify: DataCollector.Row -> DataCollector.RowOutcome,
                     stopAt: Option<nat>, ghost s: StatusFields, ghost run: DataCollector.Round)
    returns (successCount: nat, failedCount: nat, progress: Option<int>)
    requires tdb.Valid() && DataCollector.KeepsOnly(classify, DataCollector.IsoDated)
    requires |stocks| > 0 && status.isRunning && status.Fields() == s
    requires run == DataCollector.SaveEach(DataCollector.Store(tdb.Snapshot(), tdb.nextId),
                                           DataCollector.Batches(stocks[..Processed(|stocks|, stopAt)], web, classify))
    modifies status, tdb
    ensures tdb.Valid() && DataCollector.Store(tdb.Snapshot(), tdb.nextId) == run.store
    ensures |run.succeeded| == Processed(|stocks|, stopAt)
    ensures status.Fields() == AfterLoop(s, stocks, run.succeeded, if stopAt == Some(|stocks|) then None else stopAt)
    ensures successCount == DataCollector.CountTrue(run.succeeded) && failedCount == |run.succeeded| - successCount
    ensures progress == if run.succeeded == [] then None else Some(Percent(|run.succeeded| - 1, |stocks|))
  {
    var n := |stocks|;
    ghost var k := Processed(n, stopAt);
    successCount, failedCount, progress := 0, 0, None;
    var i := 0;
    assert run.succeeded[..0] == [] && run.succeeded[0..] == run.succeeded;
    assert DataCollector.Batches(stocks[..k], web, classify)[0..] == DataCollector.Batches(stocks[..k], web, classify);
    while i < n
      invariant i <= k
      invariant LoopAt(status, tdb, stocks, web, classify, s, run, i, successCount, failedCount, progress)
      decreases n - i
    {
      var broke;
      broke, successCount, failedCount, progress :=
        Turn(status, tdb, stocks, web, classify, stopAt, s, run, i, successCount, failedCount, progress);
      if broke {
        return;
      }
      i := i + 1;
    }
    assert i == k && run.succeeded[..k] == run.succeeded;
    assert DataCollector.Batches(stocks[..k], web, classify)[k..] == [];
  }

  /**
   * The end of a run over `n > 0` instruments once the loop is over: the stop handler when
   * the stop request arrives after the last instrument, then the end time, then completed,
   * cancelled or the error of reading `progress` unassigned, and the run flag cleared.
   */
  method EndRun(status: CollectionStatus, stocks: seq<StockFields>, ghost s: StatusFields, ghost flags: seq<bool>,
                stopAt: Option<nat>, successCount: nat, failedCount: nat, progress: Option<int>, endStamp: string)
    requires 0 < |stocks| && s.isRunning && |flags| == Processed(|stocks|, stopAt)
    requires status.Fields() == AfterLoop(s, stocks, flags, if stopAt == Some(|stocks|) then None else stopAt)
    requires successCount == DataCollector.CountTrue(flags) && failedCount == |flags| - successCount
    requires progress == if flags == [] then None else Some(Percent(|flags| - 1, |stocks|))
    modifies status
    ensures status.Fields() == Finish(AfterLoop(s, stocks, flags, stopAt), |stocks|, flags, Stopped(|stocks|, stopAt), endStamp)
  {
    LoopStatusKeeps(s, stocks, flags);
    if stopAt == Some(|stocks|) {
      var _ := StopCollection(status);
    }
    status.endTime := Some(endStamp);
    if status.isRunning {
      status.UpdateProgress(Completed, COMPLETED_LABEL, 100, successCount, failedCount, "", "");
    } else if progress.None? {
      status.endTime := Some(endStamp);
      status.UpdateProgress(Error, "", 0, 0, 0, UNBOUND_PROGRESS_MESSAGE, "");
    } else {
      status.UpdateProgress(Cancelled, CANCELLED_LABEL, progress.value, successCount, failedCount, "", "");
    }
    status.isRunning := false;
  }

  /**
   * The start of a run: flag it running with its start time, announce the initializing phase,
   * seed and list the instruments, and record how many there are. No trading day is touched.
   */
  method BeginRun(status: CollectionStatus, sdb: StockTable, tdb: TradingTable, startStamp: string)
    returns (stocks: seq<StockFields>)
    requires sdb.Valid() && tdb.Valid()
    modifies status, sdb
    ensures sdb.Valid() && tdb.Valid()
    ensures DataCollector.Store(sdb.Snapshot(), sdb.nextId)
      == DataCollector.SeedAll(DataCollector.Store(old(sdb.Snapshot()), old(sdb.nextId)), DataCollector.DEFAULT_STOCK_LIST)
    ensures DataCollector.ListsAll(stocks, sdb.Snapshot())
    ensures DataCollector.Store(tdb.Snapshot(), tdb.nextId) == old(DataCollector.Store(tdb.Snapshot(), tdb.nextId))
    ensures status.Fields() == Begun(old(status.Fields()), startStamp, |stocks|)
  {
    Announce(status, sdb, tdb, startStamp);
    ghost var announced := status.Fields();
    stocks := DataCollector.SeedAndListBeside(sdb, tdb);
    assert status.Fields() == announced;
    RecordTotal(status, sdb, tdb, stocks);
  }

  /** The first three steps of a run, which touch the status and neither table. */
  method Announce(status: CollectionStatus, sdb: StockTable, tdb: TradingTable, startStamp: string)
    requires sdb.Valid() && tdb.Valid()
    modifies status
    ensures status.Fields()
      == Progressed(old(status.Fields()).(isRunning := true, startTime := Some(startStamp)),
                    Initializing, INITIALIZING_LABEL, 0, 0, 0, "", "")
    ensures sdb.Valid() && tdb.Valid()
    ensures DataCollector.Store(sdb.Snapshot(), sdb.nextId) == old(DataCollector.Store(sdb.Snapshot(), sdb.nextId))
    ensures DataCollector.Store(tdb.Snapshot(), tdb.nextId) == old(DataCollector.Store(tdb.Snapshot(), tdb.nextId))
  {
    status.isRunning := true;
    status.startTime := Some(startStamp);
    status.UpdateProgress(Initializing, INITIALIZING_LABEL, 0, 0, 0, "", "");
  }

  /** `collection_status['total_stocks'] = len(stocks)`, which touches neither table. */
  method RecordTotal(status: CollectionStatus, sdb: StockTable, tdb: TradingTable, stocks: seq<StockFields>)
    requires sdb.Valid() && tdb.Valid()
    modifies status
    ensures status.Fields() == old(status.Fields()).(totalStocks := |stocks|)
    ensures sdb.Valid() && tdb.Valid() && sdb.Snapshot() == old(sdb.Snapshot())
    ensures DataCollector.Store(sdb.Snapshot(), sdb.nextId) == old(DataCollector.Store(sdb.Snapshot(), sdb.nextId))
    ensures DataCollector.Store(tdb.Snapshot(), tdb.nextId) == old(DataCollector.Store(tdb.Snapshot(), tdb.nextId))
  {
    status.totalStocks := |stocks|;
  }

  /**
   * The collecting part of a run over a non-empty list: announce the phase, run the loop with
   * `years` fixed as the cut-off `cutoff`, then end the run.
   */
  method RunCollection(status: CollectionStatus, tdb: TradingTable, stocks: seq<StockFields>,
                       web: string -> seq<DataCollector.Response>, cutoff: DataCollector.Cutoff,
                       stopAt: Option<nat>, endStamp: string)
    returns (ghost run: DataCollector.Round)
    requires tdb.Valid() && |stocks| > 0 && status.isRunning
    modifies status, tdb
    ensures run == DataCollector.SaveEach(DataCollector.Store(old(tdb.Snapshot()), old(tdb.nextId)),
                                          DataCollector.Batches(stocks[..Processed(|stocks|, stopAt)], web, DataCollector.Classifier(cutoff)))
    ensures tdb.Valid() && DataCollector.Store(tdb.Snapshot(), tdb.nextId) == run.store
    ensures status.Fields()
      == Finish(AfterLoop(Progressed(old(status.Fields()), Collecting, "", 0, 0, 0, "", ""), stocks, run.succeeded, stopAt),
                |stocks|, run.succeeded, Stopped(|stocks|, stopAt), endStamp)
  {
    StartCollecting(status, tdb);
    ghost var s := status.Fields();
    DataCollector.ClassifierKeepsRecentRows(cutoff);
    var classify := DataCollector.Classifier(cutoff);
    run := DataCollector.SaveEach(DataCollector.Store(tdb.Snapshot(), tdb.nextId),
                                  DataCollector.Batches(stocks[..Processed(|stocks|, stopAt)], web, classify));
    var successCount, failedCount, progress := CollectLoop(status, tdb, stocks, web, classify, stopAt, s, run);
    EndRunBeside(status, tdb, stocks, s, run.succeeded, stopAt, successCount, failedCount, progress, endStamp);
  }

  /** `update_progress('collecting', '', 0, 0, 0)`, which touches no trading day. */
  method StartCollecting(status: CollectionStatus, tdb: TradingTable)
    requires tdb.Valid()
    modifies status
    ensures status.Fields() == Progressed(old(status.Fields()), Collecting, "", 0, 0, 0, "", "")
    ensures tdb.Valid()
    ensures DataCollector.Store(tdb.Snapshot(), tdb.nextId) == old(DataCollector.Store(tdb.Snapshot(), tdb.nextId))
  {
    status.UpdateProgress(Collecting, "", 0, 0, 0, "", "");
  }

  /** The end of a run with no instrument to collect: the error phase, and the run flag cleared. */
  method NoStocks(status: CollectionStatus, sdb: StockTable, tdb: TradingTable)
    requires sdb.Valid() && tdb.Valid()
    modifies status
    ensures status.Fields() == Progressed(old(status.Fields()), Error, "", 0, 0, 0, NO_STOCKS_MESSAGE, "").(isRunning := false)
    ensures sdb.Valid() && tdb.Valid() && sdb.Snapshot() == old(sdb.Snapshot())
    ensures DataCollector.Store(sdb.Snapshot(), sdb.nextId) == old(DataCollector.Store(sdb.Snapshot(), sdb.nextId))
    ensures DataCollector.Store(tdb.Snapshot(), tdb.nextId) == old(DataCollector.Store(tdb.Snapshot(), tdb.nextId))
  {
    status.UpdateProgress(Error, "", 0, 0, 0, NO_STOCKS_MESSAGE, "");
    status.isRunning := false;
  }

  /** `RunCollection`, which touches no stored instrument. */
  method RunCollectionBeside(status: CollectionStatus, sdb: StockTable, tdb: TradingTable, stocks: seq<StockFields>,
                             web: string -> seq<DataCollector.Response>, cutoff: DataCollector.Cutoff,
                             stopAt: Option<nat>, endStamp: string)
    returns (ghost run: DataCollector.Round)
    requires sdb.Valid() && tdb.Valid() && |stocks| > 0 && status.isRunning
    modifies status, tdb
    ensures run == DataCollector.SaveEach(DataCollector.Store(old(tdb.Snapshot()), old(tdb.nextId)),
                                          DataCollector.Batches(stocks[..Processed(|stocks|, stopAt)], web, DataCollector.Classifier(cutoff)))
    ensures tdb.Valid() && DataCollector.Store(tdb.Snapshot(), tdb.nextId) == run.store
    ensures status.Fields()
      == Finish(AfterLoop(Progressed(old(status.Fields()), Collecting, "", 0, 0, 0, "", ""), stocks, run.succeeded, stopAt),
                |stocks|, run.succeeded, Stopped(|stocks|, stopAt), endStamp)
    ensures sdb.Valid() && sdb.Snapshot() == old(sdb.Snapshot())
    ensures DataCollector.Store(sdb.Snapshot(), sdb.nextId) == old(DataCollector.Store(sdb.Snapshot(), sdb.nextId))
  {
    run := RunCollection(status, tdb, stocks, web, cutoff, stopAt, endStamp);
  }

  /**
   * `collect_data_background`: the whole run, from the status it finds to the status it
   * leaves. It seeds the default instruments, lists every stored one, crawls and saves each
   * listed instrument until a stop request breaks the loop, and publishes its progress.
   */
  method CollectDataBackground(status: CollectionStatus, sdb: StockTable, tdb: TradingTable,
                               web: string -> seq<DataCollector.Response>, cutoff: DataCollector.Cutoff,
                               stopAt: Option<nat>, startStamp: string, endStamp: string)
    returns (ghost stocks: seq<StockFields>, ghost run: DataCollector.Round)
    requires sdb.Valid() && tdb.Valid()
    modifies status, sdb, tdb
    ensures sdb.Valid() && tdb.Valid()
    ensures DataCollector.Store(sdb.Snapshot(), sdb.nextId)
      == DataCollector.SeedAll(DataCollector.Store(old(sdb.Snapshot()), old(sdb.nextId)), DataCollector.DEFAULT_STOCK_LIST)
    ensures DataCollector.ListsAll(stocks, sdb.Snapshot())
    ensures run == DataCollector.SaveEach(DataCollector.Store(old(tdb.Snapshot()), old(tdb.nextId)),
                                          DataCollector.Batches(stocks[..Processed(|stocks|, stopAt)], web, DataCollector.Classifier(cutoff)))
    ensures DataCollector.Store(tdb.Snapshot(), tdb.nextId) == run.store
    ensures status.Fields() == FinalStatus(old(status.Fields()), stocks, run.succeeded, stopAt, startStamp, endStamp)
  {
    var listed := BeginRun(status, sdb, tdb, startStamp);
    stocks := listed;
    if |listed| == 0 {
      NoStocks(status, sdb, tdb);
      run := DataCollector.Round(DataCollector.Store(tdb.Snapshot(), tdb.nextId), []);
      assert listed[..Processed(0, stopAt)] == [];
    } else {
      run := RunCollectionBeside(status, sdb, tdb, listed, web, cutoff, stopAt, endStamp);
    }
  }

  /** `EndRun`, which touches no trading day. */
  method EndRunBeside(status: CollectionStatus, tdb: TradingTable, stocks: seq<StockFields>, ghost s: StatusFields,
                      ghost flags: seq<bool>, stopAt: Option<nat>, successCount: nat, failedCount: nat,
                      progress: Option<int>, endStamp: string)
    requires tdb.Valid()
    requires 0 < |stocks| && s.isRunning && |flags| == Processed(|stocks|, stopAt)
    requires status.Fields() == AfterLoop(s, stocks, flags, if stopAt == Some(|stocks|) then None else stopAt)
    requires successCount == DataCollector.CountTrue(flags) && failedCount == |flags| - successCount
    requires progress == if flags == [] then None else Some(Percent(|flags| - 1, |stocks|))
    modifies status
    ensures status.Fields() == Finish(AfterLoop(s, stocks, flags, stopAt), |stocks|, flags, Stopped(|stocks|, stopAt), endStamp)
    ensures tdb.Valid()
    ensures DataCollector.Store(tdb.Snapshot(), tdb.nextId) == old(DataCollector.Store(tdb.Snapshot(), tdb.nextId))
  {
    EndRun(status, stocks, s, flags, stopAt, successCount, failedCount, progress, endStamp);
  }
}
